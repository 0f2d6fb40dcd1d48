/**
 * The message-name constructor against the independent pattern that the outbox tables check:
 * `^edtech(?:\.[a-z0-9](?:[a-z0-9-]{0,38}[a-z0-9])?){3,}$`, no `--`, and no final `v<digits>` or
 * `version-<digits>` segment.
 */
module MessageNames {
  import opened Foundation
  import opened Grammar
  import opened Text

  /** `[a-z0-9](?:[a-z0-9-]{0,38}[a-z0-9])?`. */
  predicate SegmentPattern(s: string) {
    1 <= |s| <= 40 && AllDashed(s) && IsAlnum(s[0]) && IsAlnum(s[|s| - 1])
  }

  /** The repetition from here on, after `n` segments: greedy or not, some split into segments. */
  ghost predicate SegmentRuns(rest: string, n: nat)
    decreases |rest|
  {
    || (rest == "" && n >= 3)
    || (rest != "" && rest[0] == '.'
      && exists k {:trigger rest[1..k]} | 1 < k <= |rest| :: SegmentPattern(rest[1..k]) && SegmentRuns(rest[k..], n + 1))
  }

  /** `~ '\.(v[0-9]+|version-[0-9]+)$'`. */
  ghost predicate EndsInVersion(value: string) {
    exists i | 0 <= i < |value| :: value[i] == '.' && IsVersionSuffix(value[i + 1..])
  }

  /** The `message_name` check of the outbox tables. */
  ghost predicate StoredMessageName(value: string) {
    && 10 <= Utf8Length(value) <= 160
    && StartsWith(value, "edtech") && SegmentRuns(value[6..], 0)
    && !Adjacent(value, '-', '-')
    && !EndsInVersion(value)
  }

  // ---- Parts ----------------------------------------------------------------------------------

  /** The first part of a text and what follows it. */
  lemma {:induction false} FirstPart(t: string)
    ensures var parts := Split(t, '.');
      var k := |parts[0]|;
      && k <= |t| && parts[0] == t[..k]
      && (if k == |t| then parts == [t] else t[k] == '.' && parts[1..] == Split(t[k + 1..], '.'))
  {
    if t != "" && t[0] != '.' {
      FirstPart(t[1..]);
      var rest := Split(t[1..], '.');
      var k := |rest[0]|;
      assert t[..k + 1] == [t[0]] + t[1..][..k];
      if k < |t| - 1 { assert t[1..][k + 1..] == t[k + 2..]; } else { assert [t[0]] + t[1..] == t; }
    } else if t != "" {
      assert t[..0] == "";
    }
  }

  /** One repetition takes exactly the first part. */
  lemma OneSegment(t: string, n: nat)
    ensures var k := |Split(t, '.')[0]|;
      k <= |t| && (SegmentRuns(['.'] + t, n) <==> SegmentPattern(t[..k]) && SegmentRuns(t[k..], n + 1))
  {
    hide SegmentPattern, Split;
    var rest := ['.'] + t;
    var k := |Split(t, '.')[0]|;
    FirstPart(t);
    assert rest[1..k + 1] == t[..k] && rest[k + 1..] == t[k..];
    if SegmentPattern(t[..k]) && SegmentRuns(t[k..], n + 1) {
      SegmentIsPlain(t[..k]);
      assert SegmentPattern(rest[1..k + 1]) && SegmentRuns(rest[k + 1..], n + 1);
    }
    if SegmentRuns(rest, n) {
      var m :| 1 < m <= |rest| && SegmentPattern(rest[1..m]) && SegmentRuns(rest[m..], n + 1);
      assert rest[1..m] == t[..m - 1] && rest[m..] == t[m - 1..];
      SegmentEndsFirstPart(t, m - 1, n);
    }
  }

  /** The repetition matches exactly the dotted texts all of whose parts are segments, three or more in all. */
  lemma {:induction false} RunsAreParts(t: string, n: nat)
    ensures SegmentRuns(['.'] + t, n) <==>
      (forall part | part in Split(t, '.') :: SegmentPattern(part)) && n + |Split(t, '.')| >= 3
    decreases |t|
  {
    hide SegmentPattern, Split;
    var parts := Split(t, '.');
    var k := |parts[0]|;
    FirstPart(t);
    OneSegment(t, n);
    assert parts == [parts[0]] + parts[1..];
    if k < |t| {
      assert t[k..] == ['.'] + t[k + 1..];
      RunsAreParts(t[k + 1..], n + 1);
    }
  }

  lemma SegmentIsPlain(s: string)
    requires SegmentPattern(s)
    ensures s != "" && '.' !in s
  {
  }

  /** A segment followed by the end or a dot is the whole first part. */
  lemma SegmentEndsFirstPart(t: string, m: nat, n: nat)
    requires m <= |t| && SegmentPattern(t[..m]) && SegmentRuns(t[m..], n + 1)
    ensures |Split(t, '.')[0]| == m
  {
    hide Split;
    FirstPart(t);
    var k := |Split(t, '.')[0]|;
    SegmentIsPlain(t[..m]);
    if m < |t| { assert t[m..][0] == '.'; }
    assert Split(t, '.')[0] in Split(t, '.');
    forall i | 0 <= i < m ensures t[i] != '.' { assert t[i] == t[..m][i]; }
    forall i | 0 <= i < k ensures t[i] != '.' { assert t[i] == Split(t, '.')[0][i]; }
  }

  /** Two hyphens side by side lie within one part. */
  lemma {:induction false} DoubleHyphenInPart(t: string)
    ensures Adjacent(t, '-', '-') <==> exists part | part in Split(t, '.') :: Adjacent(part, '-', '-')
    decreases |t|
  {
    hide Split;
    FirstPart(t);
    var parts := Split(t, '.');
    var k := |parts[0]|;
    assert parts == [parts[0]] + parts[1..];
    if k < |t| {
      var u := t[k + 1..];
      DoubleHyphenInPart(u);
      AdjacentAround(t, k);
      assert forall part :: part in parts <==> part == parts[0] || part in parts[1..];
    }
  }

  lemma AdjacentAround(t: string, k: nat)
    requires k < |t| && t[k] == '.'
    ensures Adjacent(t, '-', '-') <==> Adjacent(t[..k], '-', '-') || Adjacent(t[k + 1..], '-', '-')
  {
    var (a, b) := (t[..k], t[k + 1..]);
    if Adjacent(t, '-', '-') {
      var i :| 0 <= i < |t| - 1 && t[i] == '-' && t[i + 1] == '-';
      if i < k { assert a[i] == '-' && a[i + 1] == '-'; } else { assert b[i - k - 1] == '-' && b[i - k] == '-'; }
    }
    if Adjacent(a, '-', '-') {
      var i :| 0 <= i < |a| - 1 && a[i] == '-' && a[i + 1] == '-';
      assert t[i] == '-' && t[i + 1] == '-';
    }
    if Adjacent(b, '-', '-') {
      var i :| 0 <= i < |b| - 1 && b[i] == '-' && b[i + 1] == '-';
      assert t[k + 1 + i] == '-' && t[k + 2 + i] == '-';
    }
  }

  lemma VersionIsPlain(s: string)
    requires IsVersionSuffix(s)
    ensures '.' !in s
  {
    forall i | 0 <= i < |s| ensures s[i] != '.' {
      if DigitsAfter(s, "v") {
        if i >= 1 { assert s[i] == s[1..][i - 1]; } else { assert s[..1][0] == s[0]; }
      } else {
        if i >= 8 { assert s[i] == s[8..][i - 8]; } else { assert s[..8][i] == s[i]; }
      }
    }
  }

  lemma {:induction false} LastPart(t: string)
    requires |Split(t, '.')| >= 2
    ensures var last := Split(t, '.')[|Split(t, '.')| - 1];
      |last| < |t| && t[|t| - |last| - 1] == '.' && t[|t| - |last|..] == last
    decreases |t|
  {
    hide Split;
    FirstPart(t);
    var parts := Split(t, '.');
    var k := |parts[0]|;
    var u := t[k + 1..];
    if |Split(u, '.')| >= 2 {
      LastPart(u);
    } else {
      FirstPart(u);
    }
  }

  /** The version pattern looks at exactly the last part. */
  lemma VersionIsLastPart(value: string)
    requires |Split(value, '.')| >= 2
    ensures EndsInVersion(value) <==> IsVersionSuffix(Split(value, '.')[|Split(value, '.')| - 1])
  {
    hide Split, IsVersionSuffix;
    LastPart(value);
    var last := Split(value, '.')[|Split(value, '.')| - 1];
    if IsVersionSuffix(last) { assert value[|value| - |last| - 1 + 1..] == last; }
    if i :| 0 <= i < |value| && value[i] == '.' && IsVersionSuffix(value[i + 1..]) {
      VersionIsPlain(value[i + 1..]);
      SplitConcat(value[..i], value[i + 1..], '.');
      SplitPlain(value[i + 1..], '.');
      assert value == value[..i] + ['.'] + value[i + 1..];
    }
  }

  // ---- The theorem ----------------------------------------------------------------------------

  lemma SegmentsAgree(part: string)
    ensures NameSegment(part) <==> SegmentPattern(part) && !Adjacent(part, '-', '-')
  {
  }

  lemma {:induction false} PartsAreAscii(t: string)
    requires forall part | part in Split(t, '.') :: SegmentPattern(part)
    ensures IsAscii(t)
    decreases |t|
  {
    hide Split;
    FirstPart(t);
    var parts := Split(t, '.');
    var k := |parts[0]|;
    assert parts[0] in parts;
    assert forall i | 0 <= i < k :: t[i] == parts[0][i];
    if k < |t| {
      assert forall part | part in parts[1..] :: part in parts;
      PartsAreAscii(t[k + 1..]);
      assert forall i | k < i < |t| :: t[i] == t[k + 1..][i - k - 1];
    }
  }

  /** A name that starts with the prefix has `edtech` as its first part. */
  lemma PrefixedParts(value: string)
    requires StartsWith(value, NAME_PREFIX)
    ensures Split(value, '.') == ["edtech"] + Split(value[7..], '.') && value[6..] == ['.'] + value[7..]
    ensures StartsWith(value, "edtech")
  {
    assert value == "edtech" + ['.'] + value[7..] by { assert value[..7] == NAME_PREFIX; }
    SplitConcat("edtech", value[7..], '.');
    SplitPlain("edtech", '.');
  }

  lemma EdtechIsSegment()
    ensures SegmentPattern("edtech") && !Adjacent("edtech", '-', '-')
  {
  }

  lemma NameInParts(value: string)
    requires StartsWith(value, NAME_PREFIX)
    ensures StoredMessageName(value) <==>
      && 10 <= Utf8Length(value) <= 160 && |Split(value, '.')| >= 4
      && (forall part | part in Split(value, '.') :: NameSegment(part))
      && !IsVersionSuffix(Split(value, '.')[|Split(value, '.')| - 1])
  {
    hide Split, SegmentRuns, SegmentPattern, NameSegment, IsVersionSuffix, EndsInVersion, Adjacent, Utf8Length;
    var parts := Split(value, '.');
    PrefixedParts(value);
    RunsAreParts(value[7..], 0);
    DoubleHyphenInPart(value);
    VersionIsLastPart(value);
    EdtechIsSegment();
    forall part | part in parts
      ensures NameSegment(part) <==> SegmentPattern(part) && !Adjacent(part, '-', '-')
    { SegmentsAgree(part); }
  }

  /** The constructor accepts exactly the names that the outbox tables accept. */
  lemma MessageNameMatchesTable(value: string)
    ensures NewMessageName(value).Success? <==> StoredMessageName(value)
  {
    hide Split, SegmentRuns, NameSegment, IsVersionSuffix, EndsInVersion, Adjacent;
    if StartsWith(value, NAME_PREFIX) {
      NameInParts(value);
      if StoredMessageName(value) {
        forall part | part in Split(value, '.') ensures SegmentPattern(part) && part != "" { SegmentsAgree(part); }
        PartsAreAscii(value);
      }
      if NewMessageName(value).Success? {
        forall part | part in Split(value, '.') ensures NameSegment(part) {}
      }
    }
    if StoredMessageName(value) { StoredHasPrefix(value); }
  }

  lemma StoredHasPrefix(value: string)
    requires StoredMessageName(value)
    ensures StartsWith(value, NAME_PREFIX)
  {
    assert SegmentRuns(value[6..], 0);
    assert value[..7] == value[..6] + [value[6]];
  }
}
