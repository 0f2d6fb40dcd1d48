/**
 * The identifier grammars: logical Cell ids, message-contract names and the bounded safe names of the
 * store. Each constructor is compared with the independent pattern that the database tables check.
 */
module Grammar {
  import opened Foundation
  import opened Text

  predicate IsAscii(s: string) { forall i | 0 <= i < |s| :: s[i] as int < 0x80 }

  /** Bytes of the UTF-8 encoding: what `str::len` and `octet_length` count. */
  function Utf8Length(s: string): nat {
    if s == "" then 0
    else
      (var c := s[0] as int; if c < 0x80 then 1 else if c < 0x800 then 2 else if c < 0x1_0000 then 3 else 4)
      + Utf8Length(s[1..])
  }

  lemma {:induction false} AsciiLength(s: string)
    requires IsAscii(s)
    ensures Utf8Length(s) == |s|
  {
    if s != "" { AsciiLength(s[1..]); }
  }

  predicate IsDashed(c: char) { IsAlnum(c) || c == '-' }

  predicate AllDashed(s: string) { forall i | 0 <= i < |s| :: IsDashed(s[i]) }

  /** Bounded by alphanumerics at both ends with no doubled hyphen: the shape every segment has. */
  predicate HyphenatedWord(s: string) {
    s != "" && AllDashed(s) && IsAlnum(s[0]) && IsAlnum(s[|s| - 1]) && !Adjacent(s, '-', '-')
  }

  /** The regular expression `^[a-z0-9]+(?:[separators][a-z0-9]+)*$`, read off its own structure. */
  ghost predicate AlnumRuns(s: string, separators: set<char>)
    decreases |s|
  {
    exists n {:trigger s[..n]} | 1 <= n <= |s| :: AllAlnum(s[..n]) &&
      (n == |s| || (s[n] in separators && AlnumRuns(s[n + 1..], separators)))
  }

  // ---- Cell ids -------------------------------------------------------------------------------

  datatype CellIdError = InvalidCellLength | InvalidCellCharacter | InvalidCellBoundary | EmptyCellSegment

  function NewCellId(value: string): (r: Result<string, CellIdError>)
  {
    if !(3 <= Utf8Length(value) <= 63) then Failure(InvalidCellLength)
    else if !AllDashed(value) then Failure(InvalidCellCharacter)
    else if !IsAlnum(value[0]) || !IsAlnum(value[|value| - 1]) then Failure(InvalidCellBoundary)
    else if Adjacent(value, '-', '-') then Failure(EmptyCellSegment)
    else Success(value)
  }

  predicate ValidCellId(value: string) { 3 <= |value| <= 63 && HyphenatedWord(value) }

  predicate ValidCells(cells: set<string>) { forall cell | cell in cells :: ValidCellId(cell) }

  lemma CellIdAccepts(value: string)
    ensures NewCellId(value) == Success(value) <==> ValidCellId(value)
    ensures NewCellId(value).Success? ==> NewCellId(value).value == value
  {
    if AllDashed(value) { AsciiLength(value); }
  }

  // ---- Message names --------------------------------------------------------------------------

  datatype MessageNameError =
    InvalidNameLength | InvalidNamePrefix | InvalidNameSegments | InvalidNameCharacter | NameVersionSuffix

  const NAME_PREFIX := "edtech."

  predicate NameSegment(segment: string) { |segment| <= 40 && HyphenatedWord(segment) }

  predicate DigitsAfter(value: string, prefix: string) {
    StartsWith(value, prefix) && |value| > |prefix| && AllDigits(value[|prefix|..])
  }

  predicate IsVersionSuffix(segment: string) { DigitsAfter(segment, "v") || DigitsAfter(segment, "version-") }

  function NewMessageName(value: string): (r: Result<string, MessageNameError>)
  {
    if !(10 <= Utf8Length(value) <= 160) || !IsAscii(value) then Failure(InvalidNameLength)
    else if !StartsWith(value, NAME_PREFIX) then Failure(InvalidNamePrefix)
    else
      var segments := Split(value, '.');
      if |segments| < 4 || "" in segments then Failure(InvalidNameSegments)
      else if exists segment | segment in segments :: !NameSegment(segment) then Failure(InvalidNameCharacter)
      else if IsVersionSuffix(segments[|segments| - 1]) then Failure(NameVersionSuffix)
      else Success(value)
  }

  predicate ValidMessageName(value: string) { NewMessageName(value).Success? }

  // ---- Safe store names -----------------------------------------------------------------------

  predicate IsSafeChar(c: char) { IsDashed(c) || c == '.' }

  /** `validate_safe_name`: consumer names and failure categories. */
  predicate ValidSafeName(value: string) {
    && 3 <= Utf8Length(value) <= 96
    && (forall i | 0 <= i < |value| :: IsSafeChar(value[i]))
    && IsAlnum(value[0]) && IsAlnum(value[|value| - 1])
    && !Adjacent(value, '-', '-')
    && "" !in Split(value, '.')
  }

  /** The `consumer_name` check of the inbox tables. */
  ghost predicate StoredSafeName(value: string) {
    && 3 <= Utf8Length(value) <= 96
    && AlnumRuns(value, {'-', '.'})
    && !Adjacent(value, '-', '-')
    && !Adjacent(value, '.', '.')
  }

  /** The `*_cell_id` check of the outbox tables. */
  ghost predicate StoredCellId(value: string) { 3 <= Utf8Length(value) <= 63 && AlnumRuns(value, {'-'}) }

  // ---- The constructors against the table checks ----------------------------------------------

  /** A text over words and separators, with words at both ends and no two separators side by side. */
  predicate RunsByPosition(s: string, separators: set<char>) {
    && s != ""
    && (forall i | 0 <= i < |s| :: IsAlnum(s[i]) || s[i] in separators)
    && IsAlnum(s[0]) && IsAlnum(s[|s| - 1])
    && (forall i | 0 <= i < |s| - 1 :: IsAlnum(s[i]) || IsAlnum(s[i + 1]))
  }

  /** The first position at or after `from` that holds no letter or digit. */
  function WordEnd(s: string, from: nat): (n: nat)
    requires from <= |s|
    ensures from <= n <= |s|
    ensures forall i | from <= i < n :: IsAlnum(s[i])
    ensures n < |s| ==> !IsAlnum(s[n])
    decreases |s| - from
  {
    if from == |s| || !IsAlnum(s[from]) then from else WordEnd(s, from + 1)
  }

  lemma {:induction false} RunsToPosition(s: string, separators: set<char>)
    requires forall c | c in separators :: !IsAlnum(c)
    requires AlnumRuns(s, separators)
    ensures RunsByPosition(s, separators)
    decreases |s|
  {
    var n :| 1 <= n <= |s| && AllAlnum(s[..n]) &&
      (n == |s| || (s[n] in separators && AlnumRuns(s[n + 1..], separators)));
    var word := s[..n];
    assert forall i | 0 <= i < n :: s[i] == word[i];
    if n < |s| {
      var t := s[n + 1..];
      RunsToPosition(t, separators);
      assert forall i | 0 <= i < |t| :: t[i] == s[n + 1 + i];
      forall i | 0 <= i < |s| ensures IsAlnum(s[i]) || s[i] in separators {
        if i > n { assert s[i] == t[i - (n + 1)]; }
      }
      forall i | 0 <= i < |s| - 1 ensures IsAlnum(s[i]) || IsAlnum(s[i + 1]) {
        if i > n { assert s[i] == t[i - (n + 1)] && s[i + 1] == t[i - n]; }
        else if i == n { assert s[i + 1] == t[0]; }
      }
    }
  }

  lemma {:induction false} PositionToRuns(s: string, separators: set<char>)
    requires forall c | c in separators :: !IsAlnum(c)
    requires RunsByPosition(s, separators)
    ensures AlnumRuns(s, separators)
    decreases |s|
  {
    var n := WordEnd(s, 0);
    assert AllAlnum(s[..n]);
    if n < |s| {
      var t := s[n + 1..];
      assert s[n] in separators && n + 1 < |s|;
      assert forall i | 0 <= i < |t| :: t[i] == s[n + 1 + i];
      forall i | 0 <= i < |t| - 1 ensures IsAlnum(t[i]) || IsAlnum(t[i + 1]) {
        assert IsAlnum(s[n + 1 + i]) || IsAlnum(s[n + 2 + i]);
      }
      PositionToRuns(t, separators);
    }
  }

  lemma RunsAreByPosition(s: string, separators: set<char>)
    requires forall c | c in separators :: !IsAlnum(c)
    ensures AlnumRuns(s, separators) <==> RunsByPosition(s, separators)
  {
    if AlnumRuns(s, separators) { RunsToPosition(s, separators); }
    if RunsByPosition(s, separators) { PositionToRuns(s, separators); }
  }

  /** Every Cell id the constructor accepts passes the table check, and no other text passes it. */
  lemma CellIdMatchesTable(value: string)
    ensures NewCellId(value).Success? <==> StoredCellId(value)
  {
    RunsAreByPosition(value, {'-'});
    CellIdAccepts(value);
    if RunsByPosition(value, {'-'}) {
      AsciiLength(value);
      forall i | 0 <= i < |value| - 1 ensures !(value[i] == '-' && value[i + 1] == '-') {
        assert IsAlnum(value[i]) || IsAlnum(value[i + 1]);
      }
    }
    if ValidCellId(value) {
      AsciiLength(value);
      forall i | 0 <= i < |value| - 1 ensures IsAlnum(value[i]) || IsAlnum(value[i + 1]) {
        assert IsDashed(value[i]) && IsDashed(value[i + 1]);
        assert !(value[i] == '-' && value[i + 1] == '-');
      }
    }
  }

  /**
   * The table check for consumer names is narrower than `ConsumerName::new`: of the names the
   * constructor accepts, the table takes exactly those where no dot touches a hyphen.
   */
  lemma SafeNameMatchesTable(value: string)
    requires ValidSafeName(value)
    ensures StoredSafeName(value) <==> !Adjacent(value, '.', '-') && !Adjacent(value, '-', '.')
  {
    RunsAreByPosition(value, {'-', '.'});
    NoEmptyPart(value, '.');
    if !Adjacent(value, '.', '-') && !Adjacent(value, '-', '.') {
      forall i | 0 <= i < |value| - 1 ensures IsAlnum(value[i]) || IsAlnum(value[i + 1]) {
        assert IsSafeChar(value[i]) && IsSafeChar(value[i + 1]);
        assert !(value[i] == '.' && value[i + 1] == '.') && !(value[i] == '-' && value[i + 1] == '-');
        assert !(value[i] == '.' && value[i + 1] == '-') && !(value[i] == '-' && value[i + 1] == '.');
      }
    }
    if StoredSafeName(value) {
      forall i | 0 <= i < |value| - 1
        ensures !(value[i] == '.' && value[i + 1] == '-') && !(value[i] == '-' && value[i + 1] == '.')
      {
        assert IsAlnum(value[i]) || IsAlnum(value[i + 1]);
      }
    }
  }

  /** Conversely the table never takes a name that the constructor rejects. */
  lemma TableNamesAreSafe(value: string)
    requires StoredSafeName(value)
    ensures ValidSafeName(value)
  {
    RunsAreByPosition(value, {'-', '.'});
    NoEmptyPart(value, '.');
  }

  /** A name that the constructor accepts and the inbox table refuses. */
  lemma SafeNameTableGap()
    ensures ValidSafeName("ab.-cd") && !StoredSafeName("ab.-cd")
  {
    var name := "ab.-cd";
    AsciiLength(name);
    assert forall i | 0 <= i < |name| - 1 :: !(name[i] == '-' && name[i + 1] == '-');
    assert forall i | 0 <= i < |name| - 1 :: !(name[i] == '.' && name[i + 1] == '.');
    NoEmptyPart(name, '.');
    SafeNameMatchesTable(name);
    assert name[2] == '.' && name[3] == '-';
  }

  // ---- Names of two words ---------------------------------------------------------------------

  /** Two hyphenated words around one dot pass the constructor and the tables. */
  lemma DottedPairIsSafe(a: string, b: string)
    requires HyphenatedWord(a) && HyphenatedWord(b) && 2 <= |a| + |b| <= 95
    ensures ValidSafeName(a + ['.'] + b) && StoredSafeName(a + ['.'] + b)
  {
    var name := a + ['.'] + b;
    AsciiLength(name);
    SplitConcat(a, b, '.');
    SplitPlain(a, '.');
    SplitPlain(b, '.');
    PairNotDoubled(a, b);
    SafeNameMatchesTable(name);
  }

  lemma PairNotDoubled(a: string, b: string)
    requires HyphenatedWord(a) && HyphenatedWord(b)
    ensures var name := a + ['.'] + b; !Adjacent(name, '-', '-') && !Adjacent(name, '.', '-') && !Adjacent(name, '-', '.')
  {
    var name := a + ['.'] + b;
    forall i | 0 <= i < |name| - 1
      ensures !(name[i] == '-' && name[i + 1] == '-') && !(name[i] == '.' && name[i + 1] == '-')
      ensures !(name[i] == '-' && name[i + 1] == '.')
    {
      if i < |a| - 1 {
        assert a[i] == name[i] && a[i + 1] == name[i + 1];
      } else if i > |a| {
        assert b[i - |a| - 1] == name[i] && b[i - |a|] == name[i + 1];
      }
    }
  }
}
