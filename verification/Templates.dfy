/**
 Message templates: placeholders are found by one leftmost scan with the pattern
 two braces, optional white space, a name, optional white space, two braces.
 */
module Templates {
  import opened Wrappers
  import opened Strings

  // ----- the pattern -----

  predicate IsNameChar(c: char) {
    IsAsciiLetter(c) || IsDigit(c) || c == '_' || c == '.' || c == '-'
  }

  datatype CharKind = Space | NameChar

  predicate In(c: char, kind: CharKind) {
    match kind
    case Space => IsSpace(c)
    case NameChar => IsNameChar(c)
  }

  /** The first index from `i` on whose character is not of the kind. */
  function SkipWhile(s: string, i: nat, kind: CharKind): (j: nat)
    requires i <= |s|
    ensures i <= j <= |s|
    decreases |s| - i
  {
    if i < |s| && In(s[i], kind) then SkipWhile(s, i + 1, kind) else i
  }

  predicate BracesAt(s: string, i: nat, brace: char) {
    i + 1 < |s| && s[i] == brace && s[i + 1] == brace
  }

  datatype Match = Match(end: nat, name: string)

  /** The match that starts at `i`, if any, by greedy repetition. */
  function MatchAt(s: string, i: nat): (m: Option<Match>)
    requires i <= |s|
    ensures m.Some? ==> i < m.value.end <= |s| && m.value.name != ""
  {
    if !BracesAt(s, i, '{') then None
    else
      var a := SkipWhile(s, i + 2, Space);
      var b := SkipWhile(s, a, NameChar);
      var c := SkipWhile(s, b, Space);
      if a < b && BracesAt(s, c, '}') then Some(Match(c + 2, s[a..b])) else None
  }

  /** What the pattern says: `s[i..j]` is a placeholder for `name`, for some way of dividing it. */
  ghost predicate Matches(s: string, i: nat, j: nat, name: string) {
    exists a: nat, b: nat :: Divides(s, i, j, name, a, b)
  }

  ghost predicate Divides(s: string, i: nat, j: nat, name: string, a: nat, b: nat) {
    && i + 2 <= a < b <= j - 2 && j <= |s|
    && BracesAt(s, i, '{') && BracesAt(s, j - 2, '}')
    && AllIn(s, i + 2, a, Space) && AllIn(s, a, b, NameChar) && AllIn(s, b, j - 2, Space)
    && s[a..b] == name
  }

  /** Every character of `s[i..j]` is of the kind. */
  predicate AllIn(s: string, i: nat, j: nat, kind: CharKind)
    requires i <= j <= |s|
    decreases j - i
  {
    i < j ==> In(s[i], kind) && AllIn(s, i + 1, j, kind)
  }

  lemma {:induction false} SkipIs(s: string, i: nat, kind: CharKind, j: nat)
    requires i <= j <= |s|
    ensures SkipWhile(s, i, kind) == j <==> AllIn(s, i, j, kind) && (j < |s| ==> !In(s[j], kind))
    decreases |s| - i
  {
    if i < j {
      SkipIs(s, i + 1, kind, j);
    }
  }

  lemma GreedyFinds(s: string, i: nat, j: nat, name: string, a: nat, b: nat)
    requires Divides(s, i, j, name, a, b)
    ensures MatchAt(s, i) == Some(Match(j, name))
  {
    SkipIs(s, i + 2, Space, a);
    SkipIs(s, a, NameChar, b);
    SkipIs(s, b, Space, j - 2);
  }

  lemma GreedyIsRight(s: string, i: nat, j: nat, name: string)
    requires i <= |s| && MatchAt(s, i) == Some(Match(j, name))
    ensures Matches(s, i, j, name)
  {
    var a := SkipWhile(s, i + 2, Space);
    var b := SkipWhile(s, a, NameChar);
    SkipIs(s, i + 2, Space, a);
    SkipIs(s, a, NameChar, b);
    SkipIs(s, b, Space, j - 2);
    assert Divides(s, i, j, name, a, b);
  }

  /**
   Greedy repetition loses nothing: it finds a match wherever the pattern has one, and the
   pattern has at most one.
   */
  lemma GreedyMatchIsTheMatch(s: string, i: nat, j: nat, name: string)
    requires i <= |s|
    ensures Matches(s, i, j, name) <==> MatchAt(s, i) == Some(Match(j, name))
  {
    if Matches(s, i, j, name) {
      var a: nat, b: nat :| Divides(s, i, j, name, a, b);
      GreedyFinds(s, i, j, name, a, b);
    }
    if MatchAt(s, i) == Some(Match(j, name)) {
      GreedyIsRight(s, i, j, name);
    }
  }

  // ----- the scan -----

  /** The leftmost match at or after `from`, with its start. */
  function FindMatch(s: string, from: nat): (m: Option<(nat, Match)>)
    requires from <= |s|
    ensures m.Some? ==> from <= m.value.0 && m.value.0 < m.value.1.end <= |s| && m.value.1.name != ""
    decreases |s| - from
  {
    if from == |s| then None
    else if MatchAt(s, from).Some? then Some((from, MatchAt(s, from).value))
    else FindMatch(s, from + 1)
  }

  /** The names of the successive matches from `from` on. */
  function MatchNames(s: string, from: nat): seq<string>
    requires from <= |s|
    decreases |s| - from
  {
    var m := FindMatch(s, from);
    if m.None? then [] else [m.value.1.name] + MatchNames(s, m.value.1.end)
  }

  function Filter(names: seq<string>): seq<string> {
    if names == [] then []
    else (if names[0] != "" then [names[0]] else []) + Filter(names[1..])
  }

  /** The elements of a set built by adding the names in turn, in insertion order. */
  function Unique(names: seq<string>): seq<string> {
    if names == [] then []
    else
      var init := Unique(names[..|names| - 1]);
      if names[|names| - 1] in init then init else init + [names[|names| - 1]]
  }

  function ExtractMergeFields(body: string): seq<string> {
    Unique(Filter(MatchNames(body, 0)))
  }

  /** What looking a field up in the merge data gives, as text; None stands for undefined and null. */
  type MergeData = string -> Option<string>

  function Missing(fields: seq<string>, data: MergeData): seq<string> {
    if fields == [] then []
    else (if data(fields[0]).None? then [fields[0]] else []) + Missing(fields[1..], data)
  }

  datatype Result<T> = Ok(value: T) | MissingFields(fields: seq<string>)

  function ValidateMergeData(body: string, data: MergeData): Result<()> {
    var missing := Missing(ExtractMergeFields(body), data);
    if missing != [] then MissingFields(missing) else Ok(())
  }

  /** Replace each match, left to right, by the value of its field, or nothing. */
  function ReplaceFrom(s: string, from: nat, data: MergeData): string
    requires from <= |s|
    decreases |s| - from
  {
    var m := FindMatch(s, from);
    if m.None? then s[from..]
    else s[from..m.value.0] + data(m.value.1.name).GetOr("") + ReplaceFrom(s, m.value.1.end, data)
  }

  function Render(body: string, data: MergeData): Result<string> {
    var checked := ValidateMergeData(body, data);
    if checked.Ok? then Ok(ReplaceFrom(body, 0, data)) else MissingFields(checked.fields)
  }

  // ----- what a template means -----

  /** A body read as literals with placeholders between them. */
  datatype Reading =
    | Tail(text: string)
    | Hole(before: string, text: string, name: string, rest: Reading)

  function Text(r: Reading): string {
    match r
    case Tail(text) => text
    case Hole(before, text, _, rest) => before + text + Text(rest)
  }

  function Names(r: Reading): seq<string> {
    match r
    case Tail(_) => []
    case Hole(_, _, name, rest) => [name] + Names(rest)
  }

  predicate AllSupplied(r: Reading, data: MergeData) {
    match r
    case Tail(_) => true
    case Hole(_, _, name, rest) => data(name).Some? && AllSupplied(rest, data)
  }

  /** The literals as they are, and a value in place of each placeholder. */
  function Filled(r: Reading, data: MergeData): string
    requires AllSupplied(r, data)
  {
    match r
    case Tail(text) => text
    case Hole(before, _, name, rest) => before + data(name).value + Filled(rest, data)
  }

  ghost predicate NothingStarts(s: string, i: nat) {
    forall j: nat, name :: !Matches(s, i, j, name)
  }

  ghost predicate Quiet(s: string, from: nat, to: nat) {
    forall i: nat :: from <= i < to ==> NothingStarts(s, i)
  }

  /**
   `r` is a reading of `s` from `from` on: it covers the text, every placeholder matches,
   and no match starts inside a literal.
   */
  ghost predicate Reads(s: string, from: nat, r: Reading)
    decreases r
  {
    match r
    case Tail(text) => from <= |s| && text == s[from..] && Quiet(s, from, |s|)
    case Hole(before, text, name, rest) =>
         ReadsHole(s, from, before, text, name) && Reads(s, from + |before| + |text|, rest)
  }

  ghost predicate ReadsHole(s: string, from: nat, before: string, text: string, name: string) {
    var start := from + |before|;
    var end := start + |text|;
    end <= |s| && before == s[from..start] && text == s[start..end] && Quiet(s, from, start)
      && Matches(s, start, end, name)
  }

  function Scan(s: string, from: nat): Reading
    requires from <= |s|
    decreases |s| - from
  {
    var m := FindMatch(s, from);
    if m.None? then Tail(s[from..])
    else
      var (start, found) := m.value;
      Hole(s[from..start], s[start..found.end], found.name, Scan(s, found.end))
  }

  lemma NothingStartsIff(s: string, i: nat)
    requires i <= |s|
    ensures NothingStarts(s, i) <==> MatchAt(s, i).None?
  {
    var m := MatchAt(s, i);
    if m.Some? {
      GreedyMatchIsTheMatch(s, i, m.value.end, m.value.name);
    } else {
      forall j: nat, name
        ensures !Matches(s, i, j, name)
      {
        GreedyMatchIsTheMatch(s, i, j, name);
      }
    }
  }

  /** The search skips quiet text. */
  lemma {:induction false} QuietIsSkipped(s: string, from: nat, to: nat)
    requires from <= to <= |s| && Quiet(s, from, to)
    ensures FindMatch(s, from) == FindMatch(s, to)
    decreases |s| - from
  {
    if from < to {
      NothingStartsIff(s, from);
      QuietIsSkipped(s, from + 1, to);
    }
  }

  lemma {:induction false} FoundMatches(s: string, from: nat)
    requires from <= |s| && FindMatch(s, from).Some?
    ensures var (start, found) := FindMatch(s, from).value; Matches(s, start, found.end, found.name)
    decreases |s| - from
  {
    var m := MatchAt(s, from);
    if m.Some? {
      GreedyIsRight(s, from, m.value.end, m.value.name);
    } else {
      FoundMatches(s, from + 1);
    }
  }

  /** The search skips nothing else. */
  lemma {:induction false} SkippedIsQuiet(s: string, from: nat)
    requires from <= |s|
    ensures Quiet(s, from, if FindMatch(s, from).Some? then FindMatch(s, from).value.0 else |s|)
    decreases |s| - from
  {
    if from < |s| && MatchAt(s, from).None? {
      SkippedIsQuiet(s, from + 1);
      NothingStartsIff(s, from);
    }
  }

  lemma {:induction false} ScanHole(s: string, from: nat)
    requires from <= |s| && FindMatch(s, from).Some?
    ensures var (start, found) := FindMatch(s, from).value;
            && Scan(s, from) == Hole(s[from..start], s[start..found.end], found.name, Scan(s, found.end))
            && ReadsHole(s, from, s[from..start], s[start..found.end], found.name)
            && from + |s[from..start]| + |s[start..found.end]| == found.end
  {
    SkippedIsQuiet(s, from);
    FoundMatches(s, from);
  }

  lemma {:induction false} ScanReads(s: string, from: nat)
    requires from <= |s|
    ensures Reads(s, from, Scan(s, from))
    decreases |s| - from
  {
    var m := FindMatch(s, from);
    if m.None? {
      SkippedIsQuiet(s, from);
    } else {
      ScanHole(s, from);
      ScanReads(s, m.value.1.end);
    }
  }

  /** A literal and the match after it are where the search finds them. */
  lemma HoleIsFound(s: string, from: nat, before: string, text: string, name: string)
    requires ReadsHole(s, from, before, text, name)
    ensures FoundHole(s, from, before, text, name)
  {
    QuietIsSkipped(s, from, from + |before|);
    GreedyMatchIsTheMatch(s, from + |before|, from + |before| + |text|, name);
  }

  /** The pieces are where the search finds them. */
  predicate Found(s: string, from: nat, r: Reading)
    decreases r
  {
    && from <= |s|
    && match r
       case Tail(text) => FindMatch(s, from).None? && text == s[from..]
       case Hole(before, text, name, rest) =>
            FoundHole(s, from, before, text, name) && Found(s, from + |before| + |text|, rest)
  }

  predicate FoundHole(s: string, from: nat, before: string, text: string, name: string)
    requires from <= |s|
  {
    var start := from + |before|;
    && start + |text| <= |s| && before == s[from..start] && text == s[start..start + |text|]
    && FindMatch(s, from) == Some((start, Match(start + |text|, name)))
  }

  lemma {:induction false} ReadingIsFound(s: string, from: nat, r: Reading)
    requires from <= |s| && Reads(s, from, r)
    ensures Found(s, from, r)
    decreases r
  {
    match r
    case Tail(_) => QuietIsSkipped(s, from, |s|);
    case Hole(before, text, name, rest) =>
      HoleIsFound(s, from, before, text, name);
      ReadingIsFound(s, from + |before| + |text|, rest);
  }

  lemma HoleIsScanned(s: string, from: nat, before: string, text: string, name: string)
    requires from <= |s| && FoundHole(s, from, before, text, name)
    ensures Scan(s, from) == Hole(before, text, name, Scan(s, from + |before| + |text|))
  {
  }

  lemma {:induction false} FoundIsTheScan(s: string, from: nat, r: Reading)
    requires Found(s, from, r)
    ensures r == Scan(s, from)
    decreases r
  {
    if r.Hole? {
      FoundIsTheScan(s, from + |r.before| + |r.text|, r.rest);
      HoleIsScanned(s, from, r.before, r.text, r.name);
    }
  }

  /** Every body has exactly one reading, and the scan finds it. */
  lemma {:induction false} ReadingIsUnique(s: string, from: nat, r: Reading)
    requires from <= |s|
    ensures Reads(s, from, r) <==> r == Scan(s, from)
  {
    ScanReads(s, from);
    if Reads(s, from, r) {
      ReadingIsFound(s, from, r);
      FoundIsTheScan(s, from, r);
    }
  }

  lemma {:induction false} ScanCovers(s: string, from: nat)
    requires from <= |s|
    ensures Text(Scan(s, from)) == s[from..]
    decreases |s| - from
  {
    var m := FindMatch(s, from);
    if m.Some? {
      ScanCovers(s, m.value.1.end);
    }
  }

  // ----- merge fields -----

  lemma {:induction false} ScanNames(s: string, from: nat)
    requires from <= |s|
    ensures Names(Scan(s, from)) == MatchNames(s, from)
    decreases |s| - from
  {
    var m := FindMatch(s, from);
    if m.Some? {
      ScanNames(s, m.value.1.end);
    }
  }

  /** A matched name is never empty, so filtering out empty names removes none. */
  lemma {:induction false} FilterKeepsAll(s: string, from: nat)
    requires from <= |s|
    ensures Filter(MatchNames(s, from)) == MatchNames(s, from)
    decreases |s| - from
  {
    var m := FindMatch(s, from);
    if m.Some? {
      FilterKeepsAll(s, m.value.1.end);
    }
  }

  /** `at` is where `name` first occurs. */
  predicate IsFirst(names: seq<string>, name: string, at: nat) {
    at < |names| && names[at] == name && forall k :: 0 <= k < at ==> names[k] != name
  }

  /**
   `fields` has the members of `names` without repetition, in the order of their
   first occurrences.
   */
  ghost predicate FirstOccurrences(fields: seq<string>, names: seq<string>) {
    && (forall name :: name in fields <==> name in names)
    && (forall j, k, p: nat, q: nat ::
          0 <= j < k < |fields| && IsFirst(names, fields[j], p) && IsFirst(names, fields[k], q) ==> p < q)
  }

  lemma {:induction false} HasFirst(names: seq<string>, name: string) returns (at: nat)
    requires name in names
    ensures IsFirst(names, name, at)
  {
    if names[0] == name {
      at := 0;
    } else {
      assert name in names[1..];
      at := HasFirst(names[1..], name);
      at := at + 1;
    }
  }

  lemma {:induction false} UniqueIsFirstOccurrences(names: seq<string>)
    ensures FirstOccurrences(Unique(names), names)
  {
    if names != [] {
      var init, last := names[..|names| - 1], names[|names| - 1];
      assert names == init + [last];
      UniqueIsFirstOccurrences(init);
      var fields := Unique(names);
      forall j, k, p: nat, q: nat | 0 <= j < k < |fields| && IsFirst(names, fields[j], p)
        && IsFirst(names, fields[k], q)
        ensures p < q
      {
        assert fields[j] in init;
        assert IsFirst(init, fields[j], p);
        if k < |Unique(init)| {
          assert fields[k] in Unique(init);
          assert fields[k] in init;
          assert IsFirst(init, fields[k], q);
        }
      }
    }
  }

  lemma FirstInPrefix(names: seq<string>, name: string, at: nat)
    requires names != []
    ensures var init := names[..|names| - 1];
            name in init ==> (IsFirst(names, name, at) <==> IsFirst(init, name, at))
    ensures name !in names[..|names| - 1] && name in names ==> (IsFirst(names, name, at) <==> at == |names| - 1)
  {
    var init := names[..|names| - 1];
    assert names == init + [names[|init|]];
    if name in init {
      var first := HasFirst(init, name);
      assert IsFirst(names, name, first);
    }
  }

  /** Only one list is that. */
  lemma {:induction false} FirstOccurrencesAreUnique(fields: seq<string>, names: seq<string>)
    requires FirstOccurrences(fields, names)
    ensures fields == Unique(names)
    decreases names
  {
    if names == [] {
      NoMembers(fields, names);
    } else {
      var init, last := names[..|names| - 1], names[|names| - 1];
      assert names == init + [last];
      if last in init {
        SameOrder(fields, names);
        FirstOccurrencesAreUnique(fields, init);
      } else {
        LastComesLast(fields, names);
        FirstOccurrencesAreUnique(fields[..|fields| - 1], init);
      }
    }
  }

  lemma SameOrder(fields: seq<string>, names: seq<string>)
    requires names != [] && FirstOccurrences(fields, names) && names[|names| - 1] in names[..|names| - 1]
    ensures FirstOccurrences(fields, names[..|names| - 1])
  {
    var init := names[..|names| - 1];
    assert names == init + [names[|init|]];
    forall j, k, p: nat, q: nat | 0 <= j < k < |fields| && IsFirst(init, fields[j], p) && IsFirst(init, fields[k], q)
      ensures p < q
    {
      FirstInPrefix(names, fields[j], p);
      FirstInPrefix(names, fields[k], q);
      assert init[p] in init && init[q] in init;
    }
  }

  lemma OnlyAtTheEnd(fields: seq<string>, names: seq<string>, at: nat)
    requires names != [] && FirstOccurrences(fields, names) && names[|names| - 1] !in names[..|names| - 1]
    requires at < |fields| && fields[at] == names[|names| - 1]
    ensures at == |fields| - 1
  {
    FirstInPrefix(names, fields[at], |names| - 1);
    assert names[|names| - 1] in names;
    if at < |fields| - 1 {
      assert fields[at + 1] in fields;
      var later := HasFirst(names, fields[at + 1]);
      assert false;
    }
  }

  lemma LastComesLast(fields: seq<string>, names: seq<string>)
    requires names != [] && FirstOccurrences(fields, names) && names[|names| - 1] !in names[..|names| - 1]
    ensures fields != [] && fields[|fields| - 1] == names[|names| - 1]
    ensures FirstOccurrences(fields[..|fields| - 1], names[..|names| - 1])
  {
    var init, last := names[..|names| - 1], names[|names| - 1];
    assert names == init + [last];
    assert last in fields;
    var at :| 0 <= at < |fields| && fields[at] == last;
    OnlyAtTheEnd(fields, names, at);
    KeepsOrder(fields, names);
  }

  lemma KeepsOrder(fields: seq<string>, names: seq<string>)
    requires names != [] && fields != [] && FirstOccurrences(fields, names)
    requires names[|names| - 1] !in names[..|names| - 1] && fields[|fields| - 1] == names[|names| - 1]
    ensures FirstOccurrences(fields[..|fields| - 1], names[..|names| - 1])
  {
    var init, others := names[..|names| - 1], fields[..|fields| - 1];
    assert names == init + [names[|init|]] && fields == others + [fields[|others|]];
    forall name
      ensures name in others <==> name in init
    {
      assert name in fields <==> name in names;
      if name in others {
        var at :| 0 <= at < |others| && others[at] == name;
        assert fields[at] == name;
        if name == names[|init|] {
          OnlyAtTheEnd(fields, names, at);
        }
      }
    }
    forall j, k, p: nat, q: nat | 0 <= j < k < |others| && IsFirst(init, others[j], p) && IsFirst(init, others[k], q)
      ensures p < q
    {
      FirstInPrefix(names, others[j], p);
      FirstInPrefix(names, others[k], q);
      assert fields[j] == others[j] && fields[k] == others[k];
      assert init[p] in init && init[q] in init;
    }
  }

  /** The merge fields are the names of the placeholders of the body's reading, once each, by first occurrence. */
  lemma {:induction false} MergeFieldsAreThePlaceholders(body: string, r: Reading)
    requires Reads(body, 0, r)
    ensures Text(r) == body
    ensures forall fields :: FirstOccurrences(fields, Names(r)) <==> fields == ExtractMergeFields(body)
  {
    ScanCovers(body, 0);
    assert body[0..] == body;
    ReadingIsUnique(body, 0, r);
    ScanNames(body, 0);
    FilterKeepsAll(body, 0);
    UniqueIsFirstOccurrences(Names(r));
    forall fields | FirstOccurrences(fields, Names(r))
      ensures fields == ExtractMergeFields(body)
    {
      FirstOccurrencesAreUnique(fields, Names(r));
    }
  }

  // ----- rendering -----

  lemma {:induction false} MissingIs(fields: seq<string>, data: MergeData)
    ensures forall f :: f in Missing(fields, data) <==> f in fields && data(f).None?
  {
    if fields != [] {
      MissingIs(fields[1..], data);
    }
  }

  lemma {:induction false} MissingAppend(fields: seq<string>, last: string, data: MergeData)
    ensures Missing(fields + [last], data) == Missing(fields, data) + (if data(last).None? then [last] else [])
  {
    if fields != [] {
      assert (fields + [last])[1..] == fields[1..] + [last];
      MissingAppend(fields[1..], last, data);
    }
  }

  /** The missing ones among the distinct names are the distinct ones among the missing names. */
  lemma {:induction false} MissingUnique(names: seq<string>, data: MergeData)
    ensures Missing(Unique(names), data) == Unique(Missing(names, data))
  {
    if names != [] {
      var init, last := names[..|names| - 1], names[|names| - 1];
      assert names == init + [last];
      MissingUnique(init, data);
      MissingAppend(init, last, data);
      MissingAppend(Unique(init), last, data);
      UniqueIsFirstOccurrences(init);
      MissingIs(init, data);
      UniqueMore(Missing(init, data), last);
      UniqueIsFirstOccurrences(Missing(init, data));
      UniqueMore(init, last);
      assert data(last).Some? ==> Missing(names, data) == Missing(init, data);
    }
  }

  lemma {:induction false} UniqueMore(names: seq<string>, last: string)
    ensures Unique(names + [last]) == if last in Unique(names) then Unique(names) else Unique(names) + [last]
  {
    assert (names + [last])[..|names|] == names;
  }

  lemma {:induction false} SuppliedIff(r: Reading, data: MergeData)
    ensures AllSupplied(r, data) <==> forall name :: name in Names(r) ==> data(name).Some?
  {
    if r.Hole? {
      SuppliedIff(r.rest, data);
      assert r.name in Names(r);
      assert forall name :: name in Names(r.rest) ==> name in Names(r);
    }
  }

  lemma {:induction false} ReplaceIsFilled(s: string, from: nat, data: MergeData)
    requires from <= |s| && AllSupplied(Scan(s, from), data)
    ensures ReplaceFrom(s, from, data) == Filled(Scan(s, from), data)
    decreases |s| - from
  {
    var m := FindMatch(s, from);
    if m.Some? {
      ReplaceIsFilled(s, m.value.1.end, data);
    }
  }

  /**
   Rendering succeeds exactly when every placeholder of the reading has a value, and
   then gives the literals and values in order: what a value contains is never
   scanned again and no placeholder becomes a blank. Otherwise it names the
   placeholders without a value, once each, by first occurrence.
   */
  lemma {:induction false} RenderFillsEveryPlaceholder(body: string, r: Reading, data: MergeData)
    requires Reads(body, 0, r)
    ensures Render(body, data).Ok? <==> AllSupplied(r, data)
    ensures Render(body, data).Ok? ==> Render(body, data).value == Filled(r, data)
    ensures Render(body, data).MissingFields? ==>
              && Render(body, data).fields != []
              && FirstOccurrences(Render(body, data).fields, Missing(Names(r), data))
              && forall f :: f in Render(body, data).fields <==> f in Names(r) && data(f).None?
  {
    MergeFieldsAreThePlaceholders(body, r);
    var fields := ExtractMergeFields(body);
    assert FirstOccurrences(fields, Names(r));
    MissingIs(fields, data);
    UniqueIsFirstOccurrences(Names(r));
    FirstOccurrencesAreUnique(fields, Names(r));
    MissingUnique(Names(r), data);
    UniqueIsFirstOccurrences(Missing(Names(r), data));
    SuppliedIff(r, data);
    var missing := Missing(fields, data);
    assert missing != [] ==> missing[0] in missing;
    if AllSupplied(r, data) {
      ReadingIsUnique(body, 0, r);
      ReplaceIsFilled(body, 0, data);
    }
  }

  lemma {:induction false} FilledAgrees(r: Reading, data: MergeData, data': MergeData)
    requires AllSupplied(r, data) && forall name :: name in Names(r) ==> data(name) == data'(name)
    ensures AllSupplied(r, data') && Filled(r, data) == Filled(r, data')
  {
    if r.Hole? {
      assert r.name in Names(r);
      assert forall name :: name in Names(r.rest) ==> name in Names(r);
      FilledAgrees(r.rest, data, data');
    }
  }

  /** A rendering depends on the extracted fields and on nothing else in the merge data. */
  lemma OnlyMergeFieldsMatter(body: string, data: MergeData, data': MergeData)
    requires forall f :: f in ExtractMergeFields(body) ==> data(f) == data'(f)
    requires Render(body, data).Ok?
    ensures Render(body, data') == Render(body, data)
  {
    var r := Scan(body, 0);
    ScanReads(body, 0);
    RenderFillsEveryPlaceholder(body, r, data);
    RenderFillsEveryPlaceholder(body, r, data');
    MergeFieldsAreThePlaceholders(body, r);
    assert FirstOccurrences(ExtractMergeFields(body), Names(r));
    FilledAgrees(r, data, data');
  }
}
