/**
 * The canonical `emitted_at` text, and the parser that accepts a text only if it formats back to itself.
 * The RFC 3339 reader in between is a parameter: whatever it does with other texts, it must read
 * `YYYY-MM-DDTHH:MM:SS.ffffffZ` (section 5.6 of RFC 3339) as the instant that the calendar gives it.
 */
module Timestamp {
  import opened Foundation
  import opened Text
  import opened Grammar
  import opened Decimal
  import opened MessageDomain
  import opened Calendar

  datatype Civil = Civil(date: Date, hour: nat, minute: nat, second: nat, micros: nat) {
    predicate Valid() {
      ValidDate(date) && date.year <= 9_999 && hour < 24 && minute < 60 && second < 60 && micros < MICROS_PER_SECOND
    }

    function Instant(): int
      requires Valid()
    {
      (SECONDS_PER_DAY * DayNumber(date) + 3_600 * hour + 60 * minute + second) * MICROS_PER_SECOND + micros
    }
  }

  function CivilOf(micros: nat): Civil {
    var seconds := micros / MICROS_PER_SECOND;
    var inDay := seconds % SECONDS_PER_DAY;
    Civil(DateOf(seconds / SECONDS_PER_DAY), inDay / 3_600, inDay / 60 % 60, inDay % 60, micros % MICROS_PER_SECOND)
  }

  /** `[year]-[month]-[day]T[hour]:[minute]:[second].[subsecond digits:6]Z`. */
  function Layout(year: string, month: string, day: string, hour: string, minute: string, second: string,
    micros: string): string {
    year + "-" + month + "-" + day + "T" + hour + ":" + minute + ":" + second + "." + micros + "Z"
  }

  function TextOf(c: Civil): string {
    Layout(Padded(c.date.year, 4), Padded(c.date.month, 2), Padded(c.date.day, 2), Padded(c.hour, 2), Padded(c.minute, 2),
      Padded(c.second, 2), Padded(c.micros, 6))
  }

  /** `format_emitted_at`. */
  function FormatEmittedAt(micros: nat): string { TextOf(CivilOf(micros)) }

  // ---- Reading --------------------------------------------------------------------------------

  predicate TimestampShape(s: string) {
    && |s| == 27
    && s[4] == '-' && s[7] == '-' && s[10] == 'T' && s[13] == ':' && s[16] == ':' && s[19] == '.' && s[26] == 'Z'
    && AllDigits(s[0..4]) && AllDigits(s[5..7]) && AllDigits(s[8..10]) && AllDigits(s[11..13]) && AllDigits(s[14..16])
    && AllDigits(s[17..19]) && AllDigits(s[20..26])
  }

  function CivilText(s: string): Civil
    requires TimestampShape(s)
  {
    Civil(Date(Value(s[0..4]), Value(s[5..7]), Value(s[8..10])), Value(s[11..13]), Value(s[14..16]), Value(s[17..19]),
      Value(s[20..26]))
  }

  /** A text of the canonical layout whose fields name a real day and time. */
  predicate StrictTimestamp(s: string) { TimestampShape(s) && CivilText(s).Valid() }

  /** The instant, in nanoseconds, that a reader of RFC 3339 must give a strict text. */
  ghost predicate ReadsStrictTexts(read: string -> Option<int>) {
    forall s | StrictTimestamp(s) :: read(s) == Some(1_000 * CivilText(s).Instant())
  }

  datatype TimestampError = InvalidEmittedAt

  /** `parse_emitted_at`; a text that is not ASCII fails the comparison at the latest. */
  function ParseEmittedAt(read: string -> Option<int>, s: string): Result<nat, TimestampError> {
    if |s| != 27 || !IsAscii(s) || s[19] != '.' || s[26] != 'Z' || !AllDigits(s[20..26]) then Failure(InvalidEmittedAt)
    else
      match read(s)
      case None => Failure(InvalidEmittedAt)
      case Some(nanos) =>
        match NewEmittedAt(nanos)
        case Failure(_) => Failure(InvalidEmittedAt)
        case Success(emitted) => if FormatEmittedAt(emitted) != s then Failure(InvalidEmittedAt) else Success(emitted)
  }

  // ---- The layout -----------------------------------------------------------------------------

  lemma LayoutSlices(y: string, mo: string, d: string, h: string, mi: string, s: string, f: string)
    requires |y| == 4 && |mo| == |d| == |h| == |mi| == |s| == 2 && |f| == 6
    ensures var t := Layout(y, mo, d, h, mi, s, f);
      && |t| == 27
      && t[4] == '-' && t[7] == '-' && t[10] == 'T' && t[13] == ':' && t[16] == ':' && t[19] == '.' && t[26] == 'Z'
      && t[0..4] == y && t[5..7] == mo && t[8..10] == d && t[11..13] == h && t[14..16] == mi && t[17..19] == s && t[20..26] == f
  {
    var t := Layout(y, mo, d, h, mi, s, f);
    assert t[0..4] == y;
    assert t[5..7] == mo;
    assert t[8..10] == d;
    assert t[11..13] == h;
    assert t[14..16] == mi;
    assert t[17..19] == s;
    assert t[20..26] == f;
  }

  lemma ShapeIsLayout(t: string)
    requires TimestampShape(t)
    ensures t == Layout(t[0..4], t[5..7], t[8..10], t[11..13], t[14..16], t[17..19], t[20..26])
  {
    var layout := Layout(t[0..4], t[5..7], t[8..10], t[11..13], t[14..16], t[17..19], t[20..26]);
    LayoutSlices(t[0..4], t[5..7], t[8..10], t[11..13], t[14..16], t[17..19], t[20..26]);
    forall i | 0 <= i < 27 ensures t[i] == layout[i] {
      SliceAt(t, layout, i);
    }
  }

  lemma SliceAt(t: string, u: string, i: nat)
    requires |t| == |u| == 27 && i < 27
    requires t[4] == u[4] && t[7] == u[7] && t[10] == u[10] && t[13] == u[13] && t[16] == u[16] && t[19] == u[19] && t[26] == u[26]
    requires t[0..4] == u[0..4] && t[5..7] == u[5..7] && t[8..10] == u[8..10] && t[11..13] == u[11..13]
    requires t[14..16] == u[14..16] && t[17..19] == u[17..19] && t[20..26] == u[20..26]
    ensures t[i] == u[i]
  {
    if i < 4 { assert t[i] == t[0..4][i] && u[i] == u[0..4][i]; }
    else if 4 < i < 7 { assert t[i] == t[5..7][i - 5] && u[i] == u[5..7][i - 5]; }
    else if 7 < i < 10 { assert t[i] == t[8..10][i - 8] && u[i] == u[8..10][i - 8]; }
    else if 10 < i < 13 { assert t[i] == t[11..13][i - 11] && u[i] == u[11..13][i - 11]; }
    else if 13 < i < 16 { assert t[i] == t[14..16][i - 14] && u[i] == u[14..16][i - 14]; }
    else if 16 < i < 19 { assert t[i] == t[17..19][i - 17] && u[i] == u[17..19][i - 17]; }
    else if 19 < i < 26 { assert t[i] == t[20..26][i - 20] && u[i] == u[20..26][i - 20]; }
  }

  lemma SmallFields(c: Civil)
    requires c.Valid()
    ensures c.date.year < Pow10(4) && c.date.month < Pow10(2) && c.date.day < Pow10(2) && c.hour < Pow10(2)
    ensures c.minute < Pow10(2) && c.second < Pow10(2) && c.micros < Pow10(6)
  {
    assert Pow10(2) == 100 && Pow10(4) == 10_000 && Pow10(6) == 1_000_000;
  }

  /** The fields of a text are the fields it was written from. */
  lemma TextReads(c: Civil)
    requires c.Valid()
    ensures StrictTimestamp(TextOf(c)) && CivilText(TextOf(c)) == c
  {
    hide Civil.Valid, Layout;
    SmallFields(c);
    LayoutSlices(Padded(c.date.year, 4), Padded(c.date.month, 2), Padded(c.date.day, 2), Padded(c.hour, 2), Padded(c.minute, 2),
      Padded(c.second, 2), Padded(c.micros, 6));
    ValueOfPadded(c.date.year, 4);
    ValueOfPadded(c.date.month, 2);
    ValueOfPadded(c.date.day, 2);
    ValueOfPadded(c.hour, 2);
    ValueOfPadded(c.minute, 2);
    ValueOfPadded(c.second, 2);
    ValueOfPadded(c.micros, 6);
  }

  lemma ReadWrites(s: string)
    requires TimestampShape(s)
    ensures TextOf(CivilText(s)) == s
  {
    hide Layout;
    ShapeIsLayout(s);
    PaddedOfValue(s[0..4]);
    PaddedOfValue(s[5..7]);
    PaddedOfValue(s[8..10]);
    PaddedOfValue(s[11..13]);
    PaddedOfValue(s[14..16]);
    PaddedOfValue(s[17..19]);
    PaddedOfValue(s[20..26]);
  }

  // ---- Instants and civil times ---------------------------------------------------------------

  lemma Quotients(days: nat, seconds: nat, micros: nat)
    requires seconds < SECONDS_PER_DAY && micros < MICROS_PER_SECOND
    ensures var instant := (SECONDS_PER_DAY * days + seconds) * MICROS_PER_SECOND + micros;
      && instant / MICROS_PER_SECOND == SECONDS_PER_DAY * days + seconds && instant % MICROS_PER_SECOND == micros
      && instant / MICROS_PER_SECOND / SECONDS_PER_DAY == days && instant / MICROS_PER_SECOND % SECONDS_PER_DAY == seconds
  {
    var total := SECONDS_PER_DAY * days + seconds;
    DivMod(total * MICROS_PER_SECOND + micros, MICROS_PER_SECOND, total, micros);
    DivMod(total, SECONDS_PER_DAY, days, seconds);
  }

  lemma CivilIsValid(micros: nat)
    requires ValidEmittedAt(micros)
    ensures CivilOf(micros).Valid() && CivilOf(micros).date.year >= 1970 && CivilOf(micros).Instant() == micros
  {
    var seconds := micros / MICROS_PER_SECOND;
    var days := seconds / SECONDS_PER_DAY;
    RangeEndsWithYear9999();
    YearsInRange(days);
    DateRoundTrip(days);
  }

  lemma InstantReadsBack(c: Civil)
    requires c.Valid() && c.date.year >= 1970
    ensures c.Instant() >= 0 && ValidEmittedAt(c.Instant()) && CivilOf(c.Instant()) == c
  {
    hide DayNumber, ValidDate, DateOf, DaysBeforeYear;
    RangeEndsWithYear9999();
    DaysInRange(c.date);
    DayRoundTrip(c.date);
    var inDay := 3_600 * c.hour + 60 * c.minute + c.second;
    Quotients(DayNumber(c.date), inDay, c.micros);
    ClockReadsBack(c.hour, c.minute, c.second);
  }

  lemma ClockReadsBack(hour: nat, minute: nat, second: nat)
    requires hour < 24 && minute < 60 && second < 60
    ensures var inDay := 3_600 * hour + 60 * minute + second;
      inDay < SECONDS_PER_DAY && inDay / 3_600 == hour && inDay / 60 % 60 == minute && inDay % 60 == second
  {
    var inDay := 3_600 * hour + 60 * minute + second;
    DivMod(inDay, 3_600, hour, 60 * minute + second);
    DivMod(inDay, 60, 60 * hour + minute, second);
    DivMod(60 * hour + minute, 60, hour, minute);
  }

  // ---- The theorems ---------------------------------------------------------------------------

  lemma StrictIsAscii(s: string)
    requires TimestampShape(s)
    ensures IsAscii(s)
  {
    forall i | 0 <= i < |s| ensures s[i] as int < 0x80 {
      if i < 4 { assert s[i] == s[0..4][i]; }
      else if 4 < i < 7 { assert s[i] == s[5..7][i - 5]; }
      else if 7 < i < 10 { assert s[i] == s[8..10][i - 8]; }
      else if 10 < i < 13 { assert s[i] == s[11..13][i - 11]; }
      else if 13 < i < 16 { assert s[i] == s[14..16][i - 14]; }
      else if 16 < i < 19 { assert s[i] == s[17..19][i - 17]; }
      else if 19 < i < 26 { assert s[i] == s[20..26][i - 20]; }
    }
  }

  /** The canonical text of every instant is read as exactly that instant. */
  lemma EmittedAtRoundTrip(read: string -> Option<int>, micros: nat)
    requires ReadsStrictTexts(read) && ValidEmittedAt(micros)
    ensures ParseEmittedAt(read, FormatEmittedAt(micros)) == Success(micros)
  {
    hide TextOf, CivilOf, CivilText, Civil.Valid, Civil.Instant;
    CivilIsValid(micros);
    TextReads(CivilOf(micros));
    StrictIsAscii(FormatEmittedAt(micros));
    assert StrictTimestamp(FormatEmittedAt(micros));
  }

  /** A text is accepted exactly when it is the canonical text of the instant it is read as. */
  lemma AcceptsIffFormatted(read: string -> Option<int>, s: string, micros: nat)
    requires ReadsStrictTexts(read)
    ensures ParseEmittedAt(read, s) == Success(micros) <==> ValidEmittedAt(micros) && s == FormatEmittedAt(micros)
  {
    hide FormatEmittedAt;
    if ValidEmittedAt(micros) && s == FormatEmittedAt(micros) { EmittedAtRoundTrip(read, micros); }
  }

  /** A text is accepted exactly when it has the strict layout and names a real time from 1970 on. */
  lemma AcceptsIffStrict(read: string -> Option<int>, s: string)
    requires ReadsStrictTexts(read)
    ensures ParseEmittedAt(read, s).Success? <==> StrictTimestamp(s) && CivilText(s).date.year >= 1970
  {
    hide TextOf, CivilOf, CivilText, Civil.Valid, Civil.Instant, ParseEmittedAt, TimestampShape;
    if ParseEmittedAt(read, s).Success? {
      var micros := ParseEmittedAt(read, s).value;
      AcceptsIffFormatted(read, s, micros);
      CivilIsValid(micros);
      TextReads(CivilOf(micros));
    }
    if StrictTimestamp(s) && CivilText(s).date.year >= 1970 {
      InstantReadsBack(CivilText(s));
      ReadWrites(s);
      EmittedAtRoundTrip(read, CivilText(s).Instant());
    }
  }
}
