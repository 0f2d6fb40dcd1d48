/**
 * Subjects as a printed form of routes: which metadata has one, that it reads back, and that the durable
 * filters of the Platform and of any number of Cells divide the subjects among them.
 */
module Subjects {
  import opened Foundation
  import opened Grammar
  import opened MessageDomain
  import opened Text
  import opened Routing

  // ---- Subject tokens -------------------------------------------------------------------------

  function RouteTokens(route: Route): seq<string> { SUBJECT_PREFIX + route.direction.Words() + [route.cellId] }

  predicate PlainRoute(route: Route) { ValidCellId(route.cellId) }

  lemma FixedWords(direction: Direction)
    ensures forall word | word in SUBJECT_PREFIX + direction.Words() :: '.' !in word && word != "" && word != "*" && word != ">"
    ensures |SUBJECT_PREFIX + direction.Words()| == 4
  {
  }

  lemma CellIdIsPlain(cellId: string)
    requires ValidCellId(cellId)
    ensures '.' !in cellId && cellId != "" && cellId != "*" && cellId != ">"
  {
  }

  lemma SubjectSplits(route: Route, suffix: string)
    requires PlainRoute(route)
    ensures Split(SubjectText(route, suffix), '.') == RouteTokens(route) + Split(suffix, '.')
  {
    var words := SUBJECT_PREFIX + route.direction.Words();
    var head := Join(words, '.');
    FixedWords(route.direction);
    CellIdIsPlain(route.cellId);
    SplitJoin(words, '.');
    SplitPlain(route.cellId, '.');
    SplitConcat(head, route.cellId, '.');
    SplitConcat(head + ['.'] + route.cellId, suffix, '.');
    assert SubjectText(route, suffix) == head + ['.'] + route.cellId + ['.'] + suffix;
    assert words + [route.cellId] + Split(suffix, '.') == RouteTokens(route) + Split(suffix, '.');
  }

  // ---- Routability ----------------------------------------------------------------------------

  /** A command to the other authority, or an event whose scope names a Cell. */
  predicate Routable(m: MessageMetadata) {
    match m.descriptor.kind
    case Command => m.target.Some? && m.target.value.PlatformTarget? != m.source.Platform?
    case Event => m.scope.CellOf().Some?
  }

  function NameSuffix(name: string): string
    requires StartsWith(name, NAME_PREFIX)
  { name[|NAME_PREFIX|..] }

  /** What the message-name grammar says about the part after `edtech.`. */
  lemma SuffixShape(name: string)
    requires ValidMessageName(name)
    ensures StartsWith(name, NAME_PREFIX) && 1 <= |NameSuffix(name)| <= 153
    ensures Split(name, '.') == ["edtech"] + Split(NameSuffix(name), '.')
    ensures "" !in Split(NameSuffix(name), '.')
    ensures forall i | 0 <= i < |name| :: name[i] == '.' || IsDashed(name[i])
  {
    AsciiLength(name);
    var suffix := NameSuffix(name);
    assert name == "edtech" + ['.'] + suffix by { assert name[..7] == NAME_PREFIX; }
    SplitConcat("edtech", suffix, '.');
    SplitPlain("edtech", '.');
    SegmentCharacters(name);
  }

  lemma {:induction false} PartCharacters(s: string, sep: char, i: nat)
    requires i < |s|
    ensures s[i] == sep || exists part | part in Split(s, sep) :: s[i] in part
  {
    var rest := Split(s[1..], sep);
    if i == 0 {
      if s[0] != sep { assert [s[0]] + rest[0] in Split(s, sep); }
    } else {
      PartCharacters(s[1..], sep, i - 1);
      if s[i] != sep {
        var part :| part in rest && s[i] in part;
        if s[0] == sep {
          assert part in Split(s, sep);
        } else if part == rest[0] {
          assert [s[0]] + rest[0] in Split(s, sep);
        } else {
          assert part in rest[1..];
          assert part in Split(s, sep);
        }
      }
    }
  }

  lemma SegmentCharacters(name: string)
    requires ValidMessageName(name)
    ensures forall i | 0 <= i < |name| :: name[i] == '.' || IsDashed(name[i])
  {
    forall i | 0 <= i < |name| ensures name[i] == '.' || IsDashed(name[i]) {
      PartCharacters(name, '.', i);
      if name[i] != '.' {
        var part :| part in Split(name, '.') && name[i] in part;
        assert NameSegment(part);
      }
    }
  }

  lemma JoinFour(a: string, b: string, c: string, d: string)
    ensures Join([a, b, c, d], '.') == a + ['.'] + (b + ['.'] + (c + ['.'] + d))
  {
    assert [a, b, c, d][1..] == [b, c, d];
    assert [b, c, d][1..] == [c, d];
    assert [c, d][1..] == [d];
    assert Join([d], '.') == d;
    assert Join([c, d], '.') == c + ['.'] + d;
    assert Join([b, c, d], '.') == b + ['.'] + (c + ['.'] + d);
  }

  lemma HeadText(direction: Direction)
    ensures Join(SUBJECT_PREFIX + direction.Words(), '.') ==
      match direction
      case CommandToCell => "edtech.v1.command.platform-to-cell"
      case CommandToPlatform => "edtech.v1.command.cell-to-platform"
      case EventToCell => "edtech.v1.event.platform-to-cell"
      case EventToPlatform => "edtech.v1.event.cell-to-platform"
  {
    hide Join;
    var words := direction.Words();
    assert SUBJECT_PREFIX + words == ["edtech", "v1", words[0], words[1]];
    JoinFour("edtech", "v1", words[0], words[1]);
    match direction
    case CommandToCell => PlatformToCellText("command");
    case CommandToPlatform => CellToPlatformText("command");
    case EventToCell => PlatformToCellText("event");
    case EventToPlatform => CellToPlatformText("event");
  }

  lemma PlatformToCellText(kind: string)
    requires kind == "command" || kind == "event"
    ensures "edtech" + ['.'] + ("v1" + ['.'] + (kind + ['.'] + "platform-to-cell")) ==
      if kind == "command" then "edtech.v1.command.platform-to-cell" else "edtech.v1.event.platform-to-cell"
  {
  }

  lemma CellToPlatformText(kind: string)
    requires kind == "command" || kind == "event"
    ensures "edtech" + ['.'] + ("v1" + ['.'] + (kind + ['.'] + "cell-to-platform")) ==
      if kind == "command" then "edtech.v1.command.cell-to-platform" else "edtech.v1.event.cell-to-platform"
  {
  }

  lemma WordsAreShort(direction: Direction)
    ensures var head := Join(SUBJECT_PREFIX + direction.Words(), '.');
      |head| <= 34 && forall i | 0 <= i < |head| :: head[i] == '.' || IsDashed(head[i])
  {
    hide Join;
    HeadText(direction);
  }

  /** The length, wildcard and empty-token checks never reject the subject of a route. */
  lemma RouteSubjectIsConcrete(route: Route, name: string)
    requires PlainRoute(route) && ValidMessageName(name)
    ensures StartsWith(name, NAME_PREFIX) && ConcreteSubject(SubjectText(route, NameSuffix(name)))
    ensures |SubjectText(route, NameSuffix(name))| <= 252
  {
    hide ValidMessageName, Split, Join;
    SuffixShape(name);
    WordsAreShort(route.direction);
    var suffix := NameSuffix(name);
    var text := SubjectText(route, suffix);
    forall i | 0 <= i < |suffix| ensures suffix[i] == '.' || IsDashed(suffix[i]) { assert suffix[i] == name[i + 7]; }
    assert forall i | 0 <= i < |text| :: text[i] == '.' || IsDashed(text[i]);
    AsciiLength(text);
    SubjectSplits(route, suffix);
    FixedWords(route.direction);
    CellIdIsPlain(route.cellId);
    NoEmptyPart(text, '.');
  }

  lemma RouteIsPlain(m: MessageMetadata)
    requires m.Valid()
    ensures RouteOf(m).Some? <==> Routable(m)
    ensures RouteOf(m).Some? ==> PlainRoute(RouteOf(m).value)
  {
  }

  /**
   * Exactly these messages have a subject: commands to the other authority and events about a Cell. No
   * such route is ever rejected by the concrete-subject check.
   */
  lemma RoutabilityIsExact(m: MessageMetadata)
    requires m.Valid()
    ensures DeriveSubject(m).Some? <==> Routable(m)
    ensures Routable(m) ==> |DeriveSubject(m).value| <= 252
  {
    hide MessageMetadata.Valid, Routable, ConcreteSubject, SubjectText;
    RouteIsPlain(m);
    NameIsValid(m);
    SuffixShape(m.descriptor.name);
    if RouteOf(m).Some? { RouteSubjectIsConcrete(RouteOf(m).value, m.descriptor.name); }
  }

  lemma NameIsValid(m: MessageMetadata)
    requires m.Valid()
    ensures ValidMessageName(m.descriptor.name)
  {
  }

  // ---- Reading a subject back -----------------------------------------------------------------

  function DirectionOf(kind: string, words: string): Option<Direction> {
    if kind == "command" && words == "platform-to-cell" then Some(CommandToCell)
    else if kind == "command" && words == "cell-to-platform" then Some(CommandToPlatform)
    else if kind == "event" && words == "platform-to-cell" then Some(EventToCell)
    else if kind == "event" && words == "cell-to-platform" then Some(EventToPlatform)
    else None
  }

  /** The route and the message name that a subject spells. */
  function ReadSubject(subject: string): Option<(Route, string)> {
    var tokens := Split(subject, '.');
    if |tokens| < 6 || tokens[..2] != SUBJECT_PREFIX then None
    else
      var direction :- DirectionOf(tokens[2], tokens[3]);
      Some((Route(direction, tokens[4]), "edtech" + ['.'] + Join(tokens[5..], '.')))
  }

  /** A subject determines the kind, the direction, the Cell and the message name. */
  lemma SubjectReadsBack(m: MessageMetadata)
    requires m.Valid() && DeriveSubject(m).Some?
    ensures ReadSubject(DeriveSubject(m).value) == Some((RouteOf(m).value, m.descriptor.name))
  {
    hide MessageMetadata.Valid, ConcreteSubject, Routable, Split, Join;
    RouteIsPlain(m);
    NameIsValid(m);
    var (route, name) := (RouteOf(m).value, m.descriptor.name);
    SuffixShape(name);
    var suffix := NameSuffix(name);
    SubjectSplits(route, suffix);
    var tokens := Split(SubjectText(route, suffix), '.');
    assert tokens[..2] == SUBJECT_PREFIX && tokens[5..] == Split(suffix, '.');
    JoinSplit(suffix, '.');
    assert name == "edtech" + ['.'] + suffix by { assert name[..7] == NAME_PREFIX; }
  }

  // ---- Durable names --------------------------------------------------------------------------

  /** The token spells the Cell id: letters and hyphens map to characters that no Cell id contains. */
  lemma TokenIsInjective(a: string, b: string)
    requires ValidCellId(a) && ValidCellId(b) && CellDurableToken(a) == CellDurableToken(b)
    ensures a == b
  {
    forall i | 0 <= i < |a| ensures a[i] == b[i] {
      assert CellDurableToken(a)[i] == DurableChar(a[i]) && CellDurableToken(b)[i] == DurableChar(b[i]);
      assert IsDashed(a[i]) && IsDashed(b[i]);
      DurableCharIsInjective(a[i], b[i]);
    }
  }

  /** A durable's token has only what the broker's names may have: upper-case letters, digits and underscores. */
  lemma TokenCharacters(cellId: string)
    requires ValidCellId(cellId)
    ensures forall c | c in CellDurableToken(cellId) :: 'A' <= c <= 'Z' || '0' <= c <= '9' || c == '_'
  {
    var token := CellDurableToken(cellId);
    forall c | c in token ensures 'A' <= c <= 'Z' || '0' <= c <= '9' || c == '_' {
      var i :| 0 <= i < |token| && token[i] == c;
      assert cellId[i] in cellId;
    }
  }

  lemma DurableCharIsInjective(a: char, b: char)
    requires IsDashed(a) && IsDashed(b) && DurableChar(a) == DurableChar(b)
    ensures a == b
  {
  }

  function CellName(cellId: string, suffix: string): string { "EDTECH_CELL_" + CellDurableToken(cellId) + suffix }

  lemma CellNamesDiffer(a: string, b: string, one: string, two: string)
    requires ValidCellId(a) && ValidCellId(b)
    requires {one, two} <= {"_COMMANDS_V1", "_EVENTS_V1"} && CellName(a, one) == CellName(b, two)
    ensures a == b && one == two
  {
    var (left, right) := (CellName(a, one), CellName(b, two));
    assert left[|left| - 5] == one[|one| - 5] && right[|right| - 5] == two[|two| - 5];
    assert "_COMMANDS_V1"[7] == 'D' && "_EVENTS_V1"[5] == 'T';
    assert left[12..|left| - |one|] == CellDurableToken(a) && right[12..|right| - |two|] == CellDurableToken(b);
    TokenIsInjective(a, b);
  }

  // ---- All bindings ---------------------------------------------------------------------------

  /** The bindings of a deployment: the Platform's two and two for each declared Cell. */
  ghost predicate Declared(cells: set<string>, binding: ConsumerBinding) {
    || binding == PlatformCommandBinding() || binding == PlatformEventBinding()
    || exists cell | cell in cells :: binding == CellCommandBinding(cell) || binding == CellEventBinding(cell)
  }

  /** The one binding that reads a route. */
  function BindingFor(route: Route): ConsumerBinding {
    match route.direction
    case CommandToCell => CellCommandBinding(route.cellId)
    case CommandToPlatform => PlatformCommandBinding()
    case EventToCell => CellEventBinding(route.cellId)
    case EventToPlatform => PlatformEventBinding()
  }

  /** No two declared bindings share a durable name, on whichever streams they are. */
  lemma DurableNamesAreDistinct(cells: set<string>, a: ConsumerBinding, b: ConsumerBinding)
    requires ValidCells(cells) && Declared(cells, a) && Declared(cells, b) && a.durableName == b.durableName
    ensures a == b
  {
    var (ra, rb) := (ReadRoute(cells, a), ReadRoute(cells, b));
    assert "EDTECH_CELL_"[7] == 'C' && "EDTECH_PLATFORM_COMMANDS_V1"[7] == 'P' && "EDTECH_PLATFORM_EVENTS_V1"[7] == 'P';
    if ra.Destination().Cell? && rb.Destination().Cell? {
      var (one, two) := (if ra.direction.CommandToCell? then "_COMMANDS_V1" else "_EVENTS_V1",
        if rb.direction.CommandToCell? then "_COMMANDS_V1" else "_EVENTS_V1");
      CellNamesDiffer(ra.cellId, rb.cellId, one, two);
      assert "_COMMANDS_V1"[7] == 'D' && "_EVENTS_V1"[5] == 'T';
    } else if ra.Destination().Platform? && rb.Destination().Platform? {
      assert |"EDTECH_PLATFORM_COMMANDS_V1"| != |"EDTECH_PLATFORM_EVENTS_V1"|;
    }
  }

  /** A route that a declared binding reads. */
  ghost function ReadRoute(cells: set<string>, binding: ConsumerBinding): (route: Route)
    requires ValidCells(cells) && Declared(cells, binding)
    ensures BindingFor(route) == binding
    ensures route.Destination().Cell? ==> ValidCellId(route.cellId) && route.cellId in cells
  {
    if binding == PlatformCommandBinding() then Route(CommandToPlatform, "")
    else if binding == PlatformEventBinding() then Route(EventToPlatform, "")
    else
      var cell :| cell in cells && (binding == CellCommandBinding(cell) || binding == CellEventBinding(cell));
      if binding == CellCommandBinding(cell) then Route(CommandToCell, cell) else Route(EventToCell, cell)
  }

  // ---- Filters --------------------------------------------------------------------------------

  predicate PlainToken(token: string) { '.' !in token && token != "*" && token != ">" }

  /** The tokens before the final `>` of the filter that reads a route. */
  function FilterHead(route: Route): seq<string> {
    SUBJECT_PREFIX + route.direction.Words() + if route.Destination().Cell? then [route.cellId] else []
  }

  lemma FilterTokens(route: Route)
    requires route.Destination().Cell? ==> ValidCellId(route.cellId)
    ensures Split(BindingFor(route).filterSubject, '.') == FilterHead(route) + [">"]
    ensures forall token | token in FilterHead(route) :: PlainToken(token)
  {
    hide Split, Join;
    var words := SUBJECT_PREFIX + route.direction.Words();
    var head := Join(words, '.');
    FixedWords(route.direction);
    SplitJoin(words, '.');
    FilterText(route);
    if route.Destination().Cell? {
      CellIdIsPlain(route.cellId);
      CellFilterSplits(head, words, route.cellId);
    } else {
      PlainFilterSplits(head, words);
    }
  }

  lemma FilterText(route: Route)
    ensures BindingFor(route).filterSubject ==
      Join(SUBJECT_PREFIX + route.direction.Words(), '.') + (if route.Destination().Cell? then ['.'] + route.cellId else []) + ['.'] + ">"
  {
    hide Join;
    HeadText(route.direction);
  }

  lemma CellFilterSplits(head: string, words: seq<string>, cellId: string)
    requires Split(head, '.') == words && '.' !in cellId
    ensures Split(head + (['.'] + cellId) + ['.'] + ">", '.') == words + [cellId] + [">"]
  {
    hide Split;
    SplitPlain(">", '.');
    SplitPlain(cellId, '.');
    SplitConcat(head, cellId, '.');
    SplitConcat(head + ['.'] + cellId, ">", '.');
    assert head + (['.'] + cellId) + ['.'] + ">" == head + ['.'] + cellId + ['.'] + ">";
  }

  lemma PlainFilterSplits(head: string, words: seq<string>)
    requires Split(head, '.') == words
    ensures Split(head + [] + ['.'] + ">", '.') == words + [] + [">"]
  {
    hide Split;
    SplitPlain(">", '.');
    SplitConcat(head, ">", '.');
    assert head + [] + ['.'] + ">" == head + ['.'] + ">";
  }

  /** A filter that ends in `>` matches exactly the longer subjects that start with its other tokens. */
  lemma {:induction false} TailMatch(head: seq<string>, subject: seq<string>)
    requires forall token | token in head :: PlainToken(token)
    ensures TokensMatch(head + [">"], subject) <==> |subject| > |head| && subject[..|head|] == head
  {
    var filter := head + [">"];
    if head == [] {
      assert filter == [">"];
    } else {
      assert |filter| >= 2 && filter[0] == head[0] && filter[1..] == head[1..] + [">"];
      assert PlainToken(head[0]);
      if subject != [] {
        TailMatch(head[1..], subject[1..]);
        if |subject| > |head| {
          PrefixStep(head, subject);
        }
      }
    }
  }

  lemma PrefixStep(head: seq<string>, subject: seq<string>)
    requires 1 <= |head| <= |subject|
    ensures subject[..|head|] == head <==> subject[0] == head[0] && subject[1..][..|head| - 1] == head[1..]
  {
    assert subject[..|head|] == [subject[0]] + subject[1..][..|head| - 1];
    assert head == [head[0]] + head[1..];
  }

  lemma HeadsExclude(a: Route, b: Route)
    requires BindingFor(a) != BindingFor(b)
    requires a.Destination().Cell? ==> ValidCellId(a.cellId)
    requires b.Destination().Cell? ==> ValidCellId(b.cellId)
    ensures exists i | 0 <= i < Min(|FilterHead(a)|, |FilterHead(b)|) :: FilterHead(a)[i] != FilterHead(b)[i]
  {
    var (ha, hb) := (FilterHead(a), FilterHead(b));
    assert |ha| >= 4 && |hb| >= 4;
    assert ha[2..4] == a.direction.Words() && hb[2..4] == b.direction.Words();
    if a.direction != b.direction {
      assert ha[2] != hb[2] || ha[3] != hb[3];
    } else {
      assert ha[4] == a.cellId && hb[4] == b.cellId;
    }
  }

  /** No subject at all, derived or not, matches the filters of two declared bindings. */
  lemma FiltersAreDisjoint(cells: set<string>, a: ConsumerBinding, b: ConsumerBinding, subject: string)
    requires ValidCells(cells) && Declared(cells, a) && Declared(cells, b)
    requires Matches(a.filterSubject, subject) && Matches(b.filterSubject, subject)
    ensures a == b
  {
    hide Split, FilterHead, BindingFor, TokensMatch;
    var (ra, rb) := (ReadRoute(cells, a), ReadRoute(cells, b));
    FilterTokens(ra);
    FilterTokens(rb);
    TailMatch(FilterHead(ra), Split(subject, '.'));
    TailMatch(FilterHead(rb), Split(subject, '.'));
    if a != b {
      HeadsExclude(ra, rb);
    }
  }

  /**
   * The subject of a message for a declared Cell matches exactly one declared binding: the one that the
   * destination's worker may bind, on the stream of the message's kind.
   */
  lemma ExactlyOneBinding(cells: set<string>, m: MessageMetadata, binding: ConsumerBinding)
    requires ValidCells(cells) && m.Valid() && DeriveSubject(m).Some? && RouteOf(m).value.cellId in cells
    ensures var route := RouteOf(m).value;
      && Declared(cells, BindingFor(route)) && Matches(BindingFor(route).filterSubject, DeriveSubject(m).value)
      && BindingFor(route).stream == StreamForKind(m.descriptor.kind)
      && RoleAllowsBinding(WorkerOf(route.Destination()), BindingFor(route))
      && (Declared(cells, binding) ==>
        (Matches(binding.filterSubject, DeriveSubject(m).value) <==> binding == BindingFor(route)))
  {
    hide MessageMetadata.Valid, ConcreteSubject, Split, Join, Routable, TokensMatch;
    RouteIsPlain(m);
    NameIsValid(m);
    var route := RouteOf(m).value;
    var suffix := NameSuffix(m.descriptor.name);
    SubjectSplits(route, suffix);
    SuffixShape(m.descriptor.name);
    FilterTokens(route);
    var tokens := RouteTokens(route) + Split(suffix, '.');
    HeadOfTokens(route, Split(suffix, '.'));
    TailMatch(FilterHead(route), tokens);
    RouteStream(m);
    if Declared(cells, binding) && Matches(binding.filterSubject, DeriveSubject(m).value) {
      FiltersAreDisjoint(cells, binding, BindingFor(route), DeriveSubject(m).value);
    }
  }

  lemma HeadOfTokens(route: Route, rest: seq<string>)
    requires |rest| >= 1
    ensures var tokens := RouteTokens(route) + rest;
      |tokens| > |FilterHead(route)| && tokens[..|FilterHead(route)|] == FilterHead(route)
  {
  }

  lemma RouteStream(m: MessageMetadata)
    requires RouteOf(m).Some?
    ensures BindingFor(RouteOf(m).value).stream == StreamForKind(m.descriptor.kind)
    ensures RouteOf(m).value.direction.Stream() == StreamForKind(m.descriptor.kind)
    ensures RoleAllowsBinding(WorkerOf(RouteOf(m).value.Destination()), BindingFor(RouteOf(m).value))
  {
  }

  /** Only one worker may bind a declared binding: roles of different authorities share none. */
  lemma BindingsBelongToOneWorker(one: MessageAuthority, two: MessageAuthority, binding: ConsumerBinding)
    requires one.Valid() && two.Valid()
    requires RoleAllowsBinding(WorkerOf(one), binding) && RoleAllowsBinding(WorkerOf(two), binding)
    ensures one == two
  {
    var cells := (if one.Cell? then {one.cellId} else {}) + if two.Cell? then {two.cellId} else {};
    assert "EDTECH_CELL_"[7] == 'C' && "EDTECH_PLATFORM_COMMANDS_V1"[7] == 'P' && "EDTECH_PLATFORM_EVENTS_V1"[7] == 'P';
    if one.Cell? && two.Cell? {
      var (left, right) := (if binding.stream.Commands? then "_COMMANDS_V1" else "_EVENTS_V1",
        if binding.stream.Commands? then "_COMMANDS_V1" else "_EVENTS_V1");
      assert binding.durableName == CellName(one.cellId, left) && binding.durableName == CellName(two.cellId, right);
      CellNamesDiffer(one.cellId, two.cellId, left, right);
    }
  }
}
