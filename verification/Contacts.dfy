/** Importing contacts from the text of an uploaded CSV file. */
module Contacts {
  import opened Wrappers
  import opened Strings

  // ----- phone numbers -----

  predicate IsPhoneChar(c: char) {
    IsDigit(c) || c == '+'
  }

  /** The digits and pluses of a text. */
  function Stripped(s: string): (r: string)
    ensures forall k :: 0 <= k < |r| ==> IsPhoneChar(r[k])
  {
    if s == "" then "" else (if IsPhoneChar(s[0]) then [s[0]] else []) + Stripped(s[1..])
  }

  function NormalizePhoneNumber(phoneNumber: string): Option<string> {
    var s := Stripped(phoneNumber);
    if "+" <= s then Some(s)
    else if "251" <= s then Some("+" + s)
    else if "0" <= s then Some("+251" + s[1..])
    else None
  }

  lemma {:induction false} StrippedKeeps(s: string)
    ensures Stripped(s) == s <==> forall k :: 0 <= k < |s| ==> IsPhoneChar(s[k])
    ensures |Stripped(s)| <= |s|
  {
    if s != "" {
      StrippedKeeps(s[1..]);
      assert s == [s[0]] + s[1..];
      if IsPhoneChar(s[0]) {
        assert Stripped(s)[1..] == Stripped(s[1..]);
      }
    }
  }

  lemma {:induction false} StrippedAppend(s: string, t: string)
    ensures Stripped(s + t) == Stripped(s) + Stripped(t)
  {
    if s == "" {
      assert s + t == t;
    } else {
      assert (s + t)[1..] == s[1..] + t;
      StrippedAppend(s[1..], t);
    }
  }

  /** A normalised number is a plus and phone characters, and normalising it again changes nothing. */
  lemma NormalizedIsFixed(phoneNumber: string)
    ensures var n := NormalizePhoneNumber(phoneNumber);
            n.Some? ==> "+" <= n.value && NormalizePhoneNumber(n.value) == n
  {
    var n := NormalizePhoneNumber(phoneNumber);
    if n.Some? {
      StrippedKeeps(n.value);
    }
  }

  /** A number is taken exactly when its digits and pluses start as an international or a national number does. */
  lemma {:induction false} NormalizedIff(phoneNumber: string)
    ensures var s, n := Stripped(phoneNumber), NormalizePhoneNumber(phoneNumber);
            && (n.Some? <==> s != "" && (s[0] == '+' || s[0] == '0' || (|s| >= 3 && s[..3] == "251")))
            && (n.Some? && s[0] == '+' ==> n.value == s)
            && (n.Some? && s[0] != '+' ==> n.value == "+251" + (if s[0] == '0' then s[1..] else s[3..]))
  {
    var s := Stripped(phoneNumber);
    if |s| >= 3 && s[..3] == "251" {
      assert s == "251" + s[3..];
      NationalSpelling(s[3..]);
    }
    assert "251" <= s ==> s[0] == '2' && s[..3] == "251";
  }

  lemma {:induction false} StrippedPrefix(prefix: string, rest: string)
    requires forall k :: 0 <= k < |prefix| ==> IsPhoneChar(prefix[k])
    ensures Stripped(prefix + rest) == prefix + Stripped(rest)
  {
    StrippedAppend(prefix, rest);
    StrippedKeeps(prefix);
  }

  lemma NationalSpelling(s: string)
    ensures "0" <= "0" + s && !("+" <= "0" + s) && !("251" <= "0" + s) && ("0" + s)[1..] == s
    ensures "251" <= "251" + s && !("+" <= "251" + s) && "+" + ("251" + s) == "+251" + s
    ensures "+" <= "+251" + s
  {
    assert ("0" + s)[0] == '0' && ("251" + s)[0] == '2' && ("+251" + s)[0] == '+';
    assert ("251" + s)[..3] == "251";
  }

  /** The three spellings of one local number are the same contact. */
  lemma {:induction false} SpellingsAgree(rest: string, prefix: string)
    requires prefix == "0" || prefix == "251" || prefix == "+251"
    ensures NormalizePhoneNumber(prefix + rest) == Some("+251" + Stripped(rest))
  {
    StrippedPrefix(prefix, rest);
    NationalSpelling(Stripped(rest));
  }

  // ----- text -----

  function TrimStart(s: string): string {
    if s != "" && IsSpace(s[0]) then TrimStart(s[1..]) else s
  }

  function TrimEnd(s: string): string {
    if s != "" && IsSpace(s[|s| - 1]) then TrimEnd(s[..|s| - 1]) else s
  }

  function Trim(s: string): string {
    TrimEnd(TrimStart(s))
  }

  /** Lines end in a line feed, with or without a carriage return before it. */
  function SplitLines(s: string): (lines: seq<string>)
    ensures lines != []
  {
    if s == "" then [""]
    else if s[0] == '\n' then [""] + SplitLines(s[1..])
    else if s[0] == '\r' && |s| > 1 && s[1] == '\n' then [""] + SplitLines(s[2..])
    else
      var rest := SplitLines(s[1..]);
      [[s[0]] + rest[0]] + rest[1..]
  }

  /** The text between delimiters; an empty delimiter separates every two characters. */
  function Split(s: string, delimiter: Option<char>): (parts: seq<string>)
    ensures delimiter.Some? || s != "" ==> parts != []
  {
    if delimiter.None? then if s == "" then [] else [[s[0]]] + Split(s[1..], delimiter)
    else if s == "" then [""]
    else if s[0] == delimiter.value then [""] + Split(s[1..], delimiter)
    else
      var rest := Split(s[1..], delimiter);
      [[s[0]] + rest[0]] + rest[1..]
  }

  function TrimAll(parts: seq<string>): (trimmed: seq<string>)
    ensures |trimmed| == |parts|
  {
    if parts == [] then [] else [Trim(parts[0])] + TrimAll(parts[1..])
  }

  predicate Blank(line: string) {
    Trim(line) == ""
  }

  function Columns(line: string, delimiter: Option<char>): seq<string> {
    TrimAll(Split(line, delimiter))
  }

  function CellAt(columns: seq<string>, i: nat): string {
    if i < |columns| then columns[i] else ""
  }

  /** Trimming removes the white space at both ends and nothing else. */
  lemma TrimIs(s: string) returns (i: nat, j: nat)
    ensures i <= j <= |s| && Trim(s) == s[i..j]
    ensures (forall k :: 0 <= k < i ==> IsSpace(s[k])) && (forall k :: j <= k < |s| ==> IsSpace(s[k]))
    ensures i < j ==> !IsSpace(s[i]) && !IsSpace(s[j - 1])
  {
    i := TrimStartIs(s);
    var t := TrimStart(s);
    j := TrimEndIs(t);
    assert Trim(s) == t[..j] == s[i..i + j];
    forall k | i + j <= k < |s|
      ensures IsSpace(s[k])
    {
      assert s[k] == t[k - i];
    }
    j := i + j;
  }

  lemma {:induction false} TrimStartIs(s: string) returns (i: nat)
    ensures i <= |s| && TrimStart(s) == s[i..] && forall k :: 0 <= k < i ==> IsSpace(s[k])
    ensures i < |s| ==> !IsSpace(s[i])
  {
    i := 0;
    if s != "" && IsSpace(s[0]) {
      i := TrimStartIs(s[1..]);
      assert forall k :: 1 <= k < i + 1 ==> s[k] == s[1..][k - 1];
      i := i + 1;
    }
  }

  lemma {:induction false} TrimEndIs(s: string) returns (j: nat)
    ensures j <= |s| && TrimEnd(s) == s[..j] && forall k :: j <= k < |s| ==> IsSpace(s[k])
    ensures 0 < j ==> !IsSpace(s[j - 1])
  {
    j := |s|;
    if s != "" && IsSpace(s[|s| - 1]) {
      j := TrimEndIs(s[..|s| - 1]);
    }
  }

  /** Joining the parts with the delimiter gives the text back, and no part contains it. */
  lemma {:induction false} SplitInverts(s: string, delimiter: char)
    ensures Join(Split(s, Some(delimiter)), delimiter) == s
    ensures forall k :: 0 <= k < |Split(s, Some(delimiter))| ==> delimiter !in Split(s, Some(delimiter))[k]
  {
    if s != "" {
      SplitInverts(s[1..], delimiter);
      var rest := Split(s[1..], Some(delimiter));
      JoinHead(rest, s[0], delimiter);
    }
  }

  /** Text in front of a join goes to its first part, or is one more part before a separator. */
  lemma {:induction false} JoinHead(parts: seq<string>, c: char, separator: char)
    requires parts != []
    ensures Join([[c] + parts[0]] + parts[1..], separator) == [c] + Join(parts, separator)
    ensures Join([""] + parts, separator) == [separator] + Join(parts, separator)
  {
    JoinMore("", parts, separator);
    if |parts| > 1 {
      JoinMore([c] + parts[0], parts[1..], separator);
      assert parts == [parts[0]] + parts[1..];
      JoinMore(parts[0], parts[1..], separator);
    }
  }

  /** The text with every line end a single line feed. */
  function WithLineFeeds(s: string): string {
    if s == "" then ""
    else if s[0] == '\r' && |s| > 1 && s[1] == '\n' then WithLineFeeds(s[1..])
    else [s[0]] + WithLineFeeds(s[1..])
  }

  /** No line has a line feed in it, and the lines are the text's, whichever way they end. */
  lemma {:induction false} SplitLinesInverts(s: string)
    ensures Join(SplitLines(s), '\n') == WithLineFeeds(s)
    ensures forall k :: 0 <= k < |SplitLines(s)| ==> '\n' !in SplitLines(s)[k]
  {
    if s != "" {
      if s[0] == '\r' && |s| > 1 && s[1] == '\n' {
        SplitLinesInverts(s[2..]);
        assert s[1..][1..] == s[2..];
        JoinHead(SplitLines(s[2..]), s[0], '\n');
      } else {
        SplitLinesInverts(s[1..]);
        JoinHead(SplitLines(s[1..]), s[0], '\n');
      }
    }
  }

  /** Content that is not blank has a header, so there is no error for a missing one. */
  lemma HeaderIsNeverMissing(content: string, delimiter: Option<char>)
    ensures Trim(content) != "" ==> Columns(SplitLines(Trim(content))[0], delimiter) != []
  {
    var i, j := TrimIs(content);
  }

  // ----- headers and records -----

  const PHONE_HEADERS := {"phone_number", "phoneNumber", "msisdn"}
  const NAME_HEADERS := {"name", "full_name"}

  function FindIndex(headers: seq<string>, among: set<string>): (at: Option<nat>)
    ensures at.Some? ==> at.value < |headers| && headers[at.value] in among && forall k :: 0 <= k < at.value ==>
            headers[k] !in among
    ensures at.None? ==> forall k :: 0 <= k < |headers| ==> headers[k] !in among
  {
    if headers == [] then None
    else if headers[0] in among then Some(0)
    else
      var rest := FindIndex(headers[1..], among);
      if rest.Some? then Some(rest.value + 1) else None
  }

  /** Header and cell pairs in order; a later pair with the same header wins. */
  function RawRecord(headers: seq<string>, columns: seq<string>, n: nat): map<string, string>
    requires n <= |headers|
  {
    if n == 0 then map[] else RawRecord(headers, columns, n - 1)[headers[n - 1] := CellAt(columns, n - 1)]
  }

  datatype Layout = Layout(headers: seq<string>, phone: nat, name: Option<nat>)

  /** Every column but the phone number's and the name's, read at the first column with its header. */
  function Metadata(layout: Layout, columns: seq<string>, n: nat): map<string, string>
    requires n <= |layout.headers|
  {
    if n == 0 then map[]
    else
      var before := Metadata(layout, columns, n - 1);
      var header := layout.headers[n - 1];
      if n - 1 == layout.phone || Some(n - 1) == layout.name then before
      else before[header := CellAt(columns, FindIndex(layout.headers, {header}).GetOr(0))]
  }

  predicate IsLast(headers: seq<string>, n: nat, header: string, at: nat)
    requires n <= |headers|
  {
    at < n && headers[at] == header && forall k :: at < k < n ==> headers[k] != header
  }

  /** The raw record holds the cell of the last column with a header. */
  lemma {:induction false} RawRecordHolds(headers: seq<string>, columns: seq<string>, n: nat, header: string, at: nat)
    requires n <= |headers| && IsLast(headers, n, header, at)
    ensures header in RawRecord(headers, columns, n) && RawRecord(headers, columns, n)[header] == CellAt(columns, at)
  {
    if at < n - 1 {
      RawRecordHolds(headers, columns, n - 1, header, at);
    }
  }

  predicate IsMetadataColumn(layout: Layout, at: nat) {
    at < |layout.headers| && at != layout.phone && Some(at) != layout.name
  }

  /**
   The metadata holds the cell of the first column with a header, for the headers of all
   columns but the number's and the name's.
   */
  lemma {:induction false} MetadataHolds(layout: Layout, columns: seq<string>, n: nat, header: string)
    requires n <= |layout.headers|
    ensures var metadata := Metadata(layout, columns, n);
            && (header in metadata <==>
                 exists at: nat :: at < n && layout.headers[at] == header && IsMetadataColumn(layout, at))
            && (header in metadata ==>
                 metadata[header] == CellAt(columns, FindIndex(layout.headers, {header}).GetOr(0)))
  {
    if n > 0 {
      MetadataHolds(layout, columns, n - 1, header);
    }
  }

  // ----- parsing -----

  datatype ContactRow = ContactRow(rowNumber: nat, phoneNumber: string, name: Option<string>, metadata: map<string,
    string>)

  datatype Reason = DuplicateInUpload | BadPhoneNumber

  datatype RowError = RowError(rowNumber: nat, rawRecord: map<string, string>, reason: Reason)

  datatype Parsed = Parsed(rows: seq<ContactRow>, errors: seq<RowError>)

  datatype ImportError = EmptyContent | TooManyRows | NoPhoneColumn | GroupNotFound

  datatype Result<T> = Ok(value: T) | Err(error: ImportError)

  const MAX_LINES := 100001

  /** The lines of the content and the header's layout, or why there are none. */
  function Prepare(content: string, delimiter: Option<char>): Result<(seq<string>, Layout)> {
    var trimmed := Trim(content);
    if trimmed == "" then Err(EmptyContent)
    else
      var lines := SplitLines(trimmed);
      if |lines| > MAX_LINES then Err(TooManyRows)
      else
        var headers := Columns(lines[0], delimiter);
        var phone := FindIndex(headers, PHONE_HEADERS);
        if phone.None? then Err(NoPhoneColumn)
          else Ok((lines, Layout(headers, phone.value, FindIndex(headers, NAME_HEADERS))))
  }

  /** What a line says, before anything is known about the other lines. */
  datatype DataLine = DataLine(
    blank: bool, phone: Option<string>, name: Option<string>, metadata: map<string, string>, rawRecord: map<string,
      string>)

  function ReadLine(line: string, layout: Layout, delimiter: Option<char>): DataLine {
    var columns := Columns(line, delimiter);
    DataLine(
      Blank(line),
      NormalizePhoneNumber(CellAt(columns, layout.phone)),
      if layout.name.Some? && layout.name.value < |columns| then Some(columns[layout.name.value]) else None,
      Metadata(layout, columns, |layout.headers|),
      RawRecord(layout.headers, columns, |layout.headers|))
  }

  function ReadLines(lines: seq<string>, layout: Layout, delimiter: Option<char>): (data: seq<DataLine>)
    ensures |data| == |lines|
    ensures forall i :: 0 <= i < |lines| ==> data[i] == ReadLine(lines[i], layout, delimiter)
  {
    seq(|lines|, i requires 0 <= i < |lines| => ReadLine(lines[i], layout, delimiter))
  }

  /** Line numbers count from 1, for the header. An accepted row is what its line says. */
  predicate RowOk(data: seq<DataLine>, row: ContactRow) {
    && 2 <= row.rowNumber <= |data|
    && var d := data[row.rowNumber - 1];
    !d.blank && d.phone == Some(row.phoneNumber) && row.name == d.name && row.metadata == d.metadata
  }

  /** An earlier accepted row already has the number. */
  predicate Repeats(rows: seq<ContactRow>, phone: Option<string>, rowNumber: nat) {
    exists k :: 0 <= k < |rows| && Some(rows[k].phoneNumber) == phone && rows[k].rowNumber < rowNumber
  }

  /** A rejected line is on record as it stands, with the true reason. */
  predicate ErrorOk(data: seq<DataLine>, rows: seq<ContactRow>, e: RowError) {
    && 2 <= e.rowNumber <= |data|
    && var d := data[e.rowNumber - 1];
    !d.blank && e.rawRecord == d.rawRecord
    && if e.reason == BadPhoneNumber then d.phone.None? else Repeats(rows, d.phone, e.rowNumber)
  }

  predicate IsRow(rows: seq<ContactRow>, number: nat) {
    exists k :: 0 <= k < |rows| && rows[k].rowNumber == number
  }

  predicate IsError(errors: seq<RowError>, number: nat) {
    exists k :: 0 <= k < |errors| && errors[k].rowNumber == number
  }

  predicate RowsOk(data: seq<DataLine>, n: nat, rows: seq<ContactRow>) {
    && (forall k :: 0 <= k < |rows| ==> RowOk(data, rows[k]) && rows[k].rowNumber <= n)
    && (forall j, k :: 0 <= j < k < |rows| ==>
       rows[j].rowNumber < rows[k].rowNumber && rows[j].phoneNumber != rows[k].phoneNumber)
  }

  predicate ErrorsOk(data: seq<DataLine>, n: nat, rows: seq<ContactRow>, errors: seq<RowError>) {
    && (forall k :: 0 <= k < |errors| ==> ErrorOk(data, rows, errors[k]) && errors[k].rowNumber <= n)
    && (forall j, k :: 0 <= j < k < |errors| ==> errors[j].rowNumber < errors[k].rowNumber)
  }

  /** A data line that is not blank is in exactly one of the lists, and a blank one in neither. */
  predicate Listed(data: seq<DataLine>, rows: seq<ContactRow>, errors: seq<RowError>, number: nat)
    requires 1 <= number <= |data|
  {
    if data[number - 1].blank then !IsRow(rows, number) && !IsError(errors, number)
    else IsRow(rows, number) != IsError(errors, number)
  }

  /** A true account of the first `n` lines, in line order, without repeated numbers. */
  ghost predicate IsParse(data: seq<DataLine>, n: nat, rows: seq<ContactRow>, errors: seq<RowError>)
    requires n <= |data|
  {
    && RowsOk(data, n, rows) && ErrorsOk(data, n, rows, errors)
    && forall number: nat :: 2 <= number <= n ==> Listed(data, rows, errors, number)
  }

  lemma SkipBlank(data: seq<DataLine>, n: nat, rows: seq<ContactRow>, errors: seq<RowError>)
    requires 1 <= n < |data| && IsParse(data, n, rows, errors) && data[n].blank
    ensures IsParse(data, n + 1, rows, errors)
  {
  }

  lemma AddRow(data: seq<DataLine>, n: nat, rows: seq<ContactRow>, errors: seq<RowError>, row: ContactRow)
    requires 1 <= n < |data| && IsParse(data, n, rows, errors)
    requires RowOk(data, row) && row.rowNumber == n + 1
    requires forall k :: 0 <= k < |rows| ==> rows[k].phoneNumber != row.phoneNumber
    ensures IsParse(data, n + 1, rows + [row], errors)
  {
    var rows' := rows + [row];
    assert RowsOk(data, n + 1, rows');
    forall k | 0 <= k < |errors|
      ensures ErrorOk(data, rows', errors[k])
    {
      StillRepeats(rows, row, data[errors[k].rowNumber - 1].phone, errors[k].rowNumber);
    }
    forall number: nat | 2 <= number <= n + 1
      ensures Listed(data, rows', errors, number)
    {
      IsRowMore(rows, row, number);
      if number <= n {
        assert Listed(data, rows, errors, number);
      }
    }
  }

  lemma StillRepeats(rows: seq<ContactRow>, row: ContactRow, phone: Option<string>, number: nat)
    ensures Repeats(rows, phone, number) ==> Repeats(rows + [row], phone, number)
  {
    if Repeats(rows, phone, number) {
      var k :| 0 <= k < |rows| && Some(rows[k].phoneNumber) == phone && rows[k].rowNumber < number;
      assert (rows + [row])[k] == rows[k];
    }
  }

  lemma IsRowMore(rows: seq<ContactRow>, row: ContactRow, number: nat)
    ensures IsRow(rows + [row], number) <==> IsRow(rows, number) || number == row.rowNumber
  {
    var rows' := rows + [row];
    assert rows'[|rows|] == row;
    if IsRow(rows, number) {
      var k :| 0 <= k < |rows| && rows[k].rowNumber == number;
      assert rows'[k] == rows[k];
    }
  }

  lemma IsErrorMore(errors: seq<RowError>, e: RowError, number: nat)
    ensures IsError(errors + [e], number) <==> IsError(errors, number) || number == e.rowNumber
  {
    var errors' := errors + [e];
    assert errors'[|errors|] == e;
    if IsError(errors, number) {
      var k :| 0 <= k < |errors| && errors[k].rowNumber == number;
      assert errors'[k] == errors[k];
    }
  }

  lemma AddError(data: seq<DataLine>, n: nat, rows: seq<ContactRow>, errors: seq<RowError>, e: RowError)
    requires 1 <= n < |data| && IsParse(data, n, rows, errors)
    requires ErrorOk(data, rows, e) && e.rowNumber == n + 1
    ensures IsParse(data, n + 1, rows, errors + [e])
  {
    assert ErrorsOk(data, n + 1, rows, errors + [e]);
    forall number: nat | 2 <= number <= n + 1
      ensures Listed(data, rows, errors + [e], number)
    {
      IsErrorMore(errors, e, number);
      if number <= n {
        assert Listed(data, rows, errors, number);
      }
    }
  }

  /** How many of the lines before `n` hold data. */
  function DataLines(data: seq<DataLine>, n: nat): nat
    requires n <= |data|
  {
    if n <= 1 then 0 else DataLines(data, n - 1) + (if data[n - 1].blank then 0 else 1)
  }

  function Phones(rows: seq<ContactRow>): (phones: set<string>)
    ensures forall k :: 0 <= k < |rows| ==> rows[k].phoneNumber in phones
  {
    set k | 0 <= k < |rows| :: rows[k].phoneNumber
  }

  lemma PhonesMore(rows: seq<ContactRow>, row: ContactRow)
    ensures Phones(rows + [row]) == Phones(rows) + {row.phoneNumber}
  {
    var rows' := rows + [row];
    assert rows'[|rows|] == row;
    assert forall k :: 0 <= k < |rows| ==> rows'[k] == rows[k];
    assert Phones(rows) <= Phones(rows') by {
      forall phone | phone in Phones(rows)
        ensures phone in Phones(rows')
      {
        var k :| 0 <= k < |rows| && rows[k].phoneNumber == phone;
        assert rows'[k].phoneNumber == phone;
      }
    }
  }

  /** The loop over the data lines. */
  method ParseLines(data: seq<DataLine>) returns (parsed: Parsed)
    requires data != []
    ensures IsParse(data, |data|, parsed.rows, parsed.errors)
    ensures |parsed.rows| + |parsed.errors| == DataLines(data, |data|)
  {
    var rows: seq<ContactRow>, errors: seq<RowError>, seen: set<string> := [], [], {};
    var lineIndex := 1;
    while lineIndex < |data|
      invariant 1 <= lineIndex <= |data|
      invariant IsParse(data, lineIndex, rows, errors)
      invariant seen == Phones(rows)
      invariant |rows| + |errors| == DataLines(data, lineIndex)
    {
      var line := data[lineIndex];
      if line.blank {
        SkipBlank(data, lineIndex, rows, errors);
      } else if line.phone.Some? && line.phone.value !in seen {
        var row := ContactRow(lineIndex + 1, line.phone.value, line.name, line.metadata);
        AddRow(data, lineIndex, rows, errors, row);
        PhonesMore(rows, row);
        seen := seen + {line.phone.value};
        rows := rows + [row];
      } else {
        var e := RowError(lineIndex + 1, line.rawRecord, if line.phone.Some? then DuplicateInUpload
          else BadPhoneNumber);
        AddError(data, lineIndex, rows, errors, e);
        errors := errors + [e];
      }
      lineIndex := lineIndex + 1;
    }
    parsed := Parsed(rows, errors);
  }

  // ----- the account is the only one -----

  lemma NumberFixesPhone(data: seq<DataLine>, rows: seq<ContactRow>, k: nat, other: ContactRow)
    requires RowsOk(data, |data|, rows) && k < |rows| && RowOk(data, other)
    requires IsRow(rows, other.rowNumber) && other.rowNumber < rows[k].rowNumber
    ensures other.phoneNumber != rows[k].phoneNumber
  {
    var i :| 0 <= i < |rows| && rows[i].rowNumber == other.rowNumber;
    assert RowOk(data, rows[i]);
    assert i < k;
  }

  /** A line accepted in one true account is accepted in any other. */
  lemma {:induction false} SameRows(data: seq<DataLine>, p: Parsed, q: Parsed, number: nat)
    requires IsParse(data, |data|, p.rows, p.errors) && IsParse(data, |data|, q.rows, q.errors)
    ensures IsRow(p.rows, number) ==> IsRow(q.rows, number)
    decreases number
  {
    if IsRow(p.rows, number) && !IsRow(q.rows, number) {
      var k :| 0 <= k < |p.rows| && p.rows[k].rowNumber == number;
      var j := RejectedRepeats(data, p.rows, q, k);
      SameRows(data, q, p, q.rows[j].rowNumber);
      assert RowOk(data, q.rows[j]);
      NumberFixesPhone(data, p.rows, k, q.rows[j]);
    }
  }

  /** If one account accepts a line and another rejects it, the other has accepted the number earlier. */
  lemma RejectedRepeats(data: seq<DataLine>, rows: seq<ContactRow>, q: Parsed, k: nat) returns (j: nat)
    requires RowsOk(data, |data|, rows) && IsParse(data, |data|, q.rows, q.errors) && k < |rows|
    requires !IsRow(q.rows, rows[k].rowNumber)
    ensures j < |q.rows| && q.rows[j].phoneNumber == rows[k].phoneNumber && q.rows[j].rowNumber < rows[k].rowNumber
  {
    var number := rows[k].rowNumber;
    assert RowOk(data, rows[k]);
    assert Listed(data, q.rows, q.errors, number);
    var e :| 0 <= e < |q.errors| && q.errors[e].rowNumber == number;
    assert ErrorOk(data, q.rows, q.errors[e]);
    j :| 0 <= j < |q.rows| && Some(q.rows[j].phoneNumber) == data[number - 1].phone && q.rows[j].rowNumber < number;
  }

  lemma SameErrors(data: seq<DataLine>, p: Parsed, q: Parsed, number: nat)
    requires IsParse(data, |data|, p.rows, p.errors) && IsParse(data, |data|, q.rows, q.errors)
    ensures IsError(p.errors, number) ==> IsError(q.errors, number)
  {
    if IsError(p.errors, number) {
      var k :| 0 <= k < |p.errors| && p.errors[k].rowNumber == number;
      assert ErrorOk(data, p.rows, p.errors[k]);
      assert Listed(data, p.rows, p.errors, number) && Listed(data, q.rows, q.errors, number);
      SameRows(data, q, p, number);
    }
  }

  predicate Increasing(numbers: seq<nat>) {
    forall j, k :: 0 <= j < k < |numbers| ==> numbers[j] < numbers[k]
  }

  lemma {:induction false} SameSorted(a: seq<nat>, b: seq<nat>)
    requires Increasing(a) && Increasing(b) && forall x :: x in a <==> x in b
    ensures a == b
    decreases |a|
  {
    if a == [] {
      NoMembers(a, b);
    } else {
      assert a[|a| - 1] in b;
      assert b[|b| - 1] in a;
      var a', b', last := a[..|a| - 1], b[..|b| - 1], a[|a| - 1];
      assert a == a' + [last] && b == b' + [last];
      assert last !in a' && last !in b';
      forall x
        ensures x in a' <==> x in b'
      {
        assert x in a <==> x in b;
      }
      SameSorted(a', b');
    }
  }

  function RowNumbers(rows: seq<ContactRow>): (numbers: seq<nat>)
    ensures |numbers| == |rows| && forall k :: 0 <= k < |rows| ==> numbers[k] == rows[k].rowNumber
  {
    seq(|rows|, k requires 0 <= k < |rows| => rows[k].rowNumber)
  }

  function ErrorNumbers(errors: seq<RowError>): (numbers: seq<nat>)
    ensures |numbers| == |errors| && forall k :: 0 <= k < |errors| ==> numbers[k] == errors[k].rowNumber
  {
    seq(|errors|, k requires 0 <= k < |errors| => errors[k].rowNumber)
  }

  /** So what the parser promises leaves it no choice: the accepted rows and the errors are determined by the lines. */
  lemma AccountIsUnique(data: seq<DataLine>, p: Parsed, q: Parsed)
    requires IsParse(data, |data|, p.rows, p.errors) && IsParse(data, |data|, q.rows, q.errors)
    ensures p == q
  {
    SameRowNumbers(data, p, q);
    forall k | 0 <= k < |p.rows|
      ensures p.rows[k] == q.rows[k]
    {
      assert RowNumbers(p.rows)[k] == RowNumbers(q.rows)[k];
      assert RowOk(data, p.rows[k]) && RowOk(data, q.rows[k]);
    }
    SameErrorNumbers(data, p, q);
    forall k | 0 <= k < |p.errors|
      ensures p.errors[k] == q.errors[k]
    {
      assert ErrorNumbers(p.errors)[k] == ErrorNumbers(q.errors)[k];
      assert ErrorOk(data, p.rows, p.errors[k]) && ErrorOk(data, q.rows, q.errors[k]);
    }
  }

  lemma SameRowNumbers(data: seq<DataLine>, p: Parsed, q: Parsed)
    requires IsParse(data, |data|, p.rows, p.errors) && IsParse(data, |data|, q.rows, q.errors)
    ensures RowNumbers(p.rows) == RowNumbers(q.rows)
  {
    forall number: nat
      ensures number in RowNumbers(p.rows) <==> number in RowNumbers(q.rows)
    {
      SameRows(data, p, q, number);
      SameRows(data, q, p, number);
      IsRowIff(p.rows, number);
      IsRowIff(q.rows, number);
    }
    SameSorted(RowNumbers(p.rows), RowNumbers(q.rows));
  }

  lemma SameErrorNumbers(data: seq<DataLine>, p: Parsed, q: Parsed)
    requires IsParse(data, |data|, p.rows, p.errors) && IsParse(data, |data|, q.rows, q.errors)
    ensures ErrorNumbers(p.errors) == ErrorNumbers(q.errors)
  {
    forall number: nat
      ensures number in ErrorNumbers(p.errors) <==> number in ErrorNumbers(q.errors)
    {
      SameErrors(data, p, q, number);
      SameErrors(data, q, p, number);
      IsErrorIff(p.errors, number);
      IsErrorIff(q.errors, number);
    }
    SameSorted(ErrorNumbers(p.errors), ErrorNumbers(q.errors));
  }

  lemma IsRowIff(rows: seq<ContactRow>, number: nat)
    ensures IsRow(rows, number) <==> number in RowNumbers(rows)
  {
    if IsRow(rows, number) {
      var k :| 0 <= k < |rows| && rows[k].rowNumber == number;
      assert RowNumbers(rows)[k] == number;
    }
  }

  lemma IsErrorIff(errors: seq<RowError>, number: nat)
    ensures IsError(errors, number) <==> number in ErrorNumbers(errors)
  {
    if IsError(errors, number) {
      var k :| 0 <= k < |errors| && errors[k].rowNumber == number;
      assert ErrorNumbers(errors)[k] == number;
    }
  }

  // ----- importing -----

  datatype Contact = Contact(name: Option<string>, metadata: map<string, string>)

  /** Contacts are keyed by tenant and number. */
  type Key = (string, string)

  datatype Upload = Upload(tenant: string, group: Option<nat>, total: nat, valid: nat, invalid: nat)

  datatype Summary = Summary(upload: nat, total: nat, valid: nat, invalid: nat)

  /** Insert, or keep the stored name where none is given and lay the new metadata over the old. */
  function Upserted(stored: Option<Contact>, row: ContactRow): Contact {
    match stored
    case None => Contact(row.name, row.metadata)
    case Some(c) => Contact(if row.name.Some? then row.name else c.name, c.metadata + row.metadata)
  }

  function Lookup(contacts: map<Key, Contact>, key: Key): Option<Contact> {
    if key in contacts then Some(contacts[key]) else None
  }

  /** `silent` are the numbers whose statement changes and returns nothing. */
  function UpsertAll(
    contacts: map<Key, Contact>, tenant: string, rows: seq<ContactRow>, silent: set<string>): map<Key, Contact> {
    if rows == [] then contacts
    else
      var before := UpsertAll(contacts, tenant, rows[..|rows| - 1], silent);
      var row := rows[|rows| - 1];
      if row.phoneNumber in silent then before
      else before[(tenant, row.phoneNumber) := Upserted(Lookup(before, (tenant, row.phoneNumber)), row)]
  }

  function CountValid(rows: seq<ContactRow>, silent: set<string>): (n: nat)
    ensures n <= |rows|
  {
    if rows == [] then 0
    else CountValid(rows[..|rows| - 1], silent) + (if rows[|rows| - 1].phoneNumber in silent then 0 else 1)
  }

  /** The contacts stored by the import: one per row that returned. */
  function Stored(tenant: string, rows: seq<ContactRow>, silent: set<string>): set<Key> {
    set k | 0 <= k < |rows| && rows[k].phoneNumber !in silent :: (tenant, rows[k].phoneNumber)
  }

  function Joined(group: Option<nat>, keys: set<Key>): set<(nat, Key)> {
    if group.Some? then set key | key in keys :: (group.value, key) else {}
  }

  datatype Tables = Tables(contacts: map<Key, Contact>, members: set<(nat, Key)>, uploads: seq<Upload>,
    uploadErrors: seq<(nat, RowError)>)

  /** The tables after a parsed file is recorded. */
  function Recorded(t: Tables, tenant: string, group: Option<nat>, parsed: Parsed, silent: set<string>): Tables {
    Tables(
      UpsertAll(t.contacts, tenant, parsed.rows, silent),
      t.members + Joined(group, Stored(tenant, parsed.rows, silent)),
      t.uploads + [Upload(tenant, group, |parsed.rows| + |parsed.errors|, CountValid(parsed.rows, silent),
        |parsed.errors|)],
      t.uploadErrors + ErrorRows(|t.uploads|, parsed.errors))
  }

  /** A refused import changes nothing; another one records the file and reports its counts. */
  predicate ImportOf(
    tenant: string, groups: set<nat>, group: Option<nat>, parsed: Result<Parsed>, silent: set<string>,
    before: Tables, after: Tables, result: Result<Summary>)
  {
    match parsed
    case Err(e) => result == Err(e) && after == before
    case Ok(p) =>
      if group.Some? && group.value !in groups then result == Err(GroupNotFound) && after == before
      else
        && after == Recorded(before, tenant, group, p, silent)
        && result == Ok(Summary(|before.uploads|, |p.rows| + |p.errors|, CountValid(p.rows, silent), |p.errors|))
  }

  class ContactsService {
    var contacts: map<Key, Contact>
    var members: set<(nat, Key)>
    var uploads: seq<Upload>
    var uploadErrors: seq<(nat, RowError)>

    function Contents(): Tables
      reads this
    {
      Tables(contacts, members, uploads, uploadErrors)
    }

    constructor ()
      ensures contacts == map[] && members == {} && uploads == [] && uploadErrors == []
    {
      contacts, members, uploads, uploadErrors := map[], {}, [], [];
    }

    /** `groups` are the tenant's contact groups. */
    method ImportInlineCsv(
      tenant: string, groups: set<nat>, group: Option<nat>, content: string, delimiter: Option<char>,
      silent: set<string>)
      returns (result: Result<Summary>, parsed: Result<Parsed>)
      modifies this
      ensures IsParseOf(content, delimiter, parsed)
      ensures ImportOf(tenant, groups, group, parsed, silent, old(Contents()), Contents(), result)
    {
      parsed := ParseCsvContent(content, delimiter);
      result := ImportParsed(tenant, groups, group, parsed, silent);
    }

    method ImportParsed(
      tenant: string, groups: set<nat>, group: Option<nat>, parsed: Result<Parsed>, silent: set<string>)
      returns (result: Result<Summary>)
      modifies this
      ensures ImportOf(tenant, groups, group, parsed, silent, old(Contents()), Contents(), result)
    {
      if parsed.Err? {
        return Err(parsed.error);
      }
      if group.Some? && group.value !in groups {
        return Err(GroupNotFound);
      }
      var summary := Store(tenant, group, parsed.value, silent);
      result := Ok(summary);
    }

    /** The transaction that records an upload. */
    method Store(tenant: string, group: Option<nat>, parsed: Parsed, silent: set<string>) returns (summary: Summary)
      modifies this
      ensures summary == Summary(|old(uploads)|, |parsed.rows| + |parsed.errors|, CountValid(parsed.rows, silent),
              |parsed.errors|)
      ensures Contents() == Recorded(old(Contents()), tenant, group, parsed, silent)
    {
      var upload := |uploads|;
      uploadErrors := uploadErrors + ErrorRows(upload, parsed.errors);
      var valid := UpsertRows(tenant, group, parsed.rows, silent);
      uploads := uploads + [Upload(tenant, group, |parsed.rows| + |parsed.errors|, valid, |parsed.errors|)];
      summary := Summary(upload, |parsed.rows| + |parsed.errors|, valid, |parsed.errors|);
    }

    /** The loop over the accepted rows. */
    method UpsertRows(
      tenant: string, group: Option<nat>, rows: seq<ContactRow>, silent: set<string>) returns (valid: nat)
      modifies this`contacts, this`members
      ensures valid == CountValid(rows, silent)
      ensures contacts == UpsertAll(old(contacts), tenant, rows, silent)
      ensures members == old(members) + Joined(group, Stored(tenant, rows, silent))
    {
      valid := 0;
      var k := 0;
      while k < |rows|
        invariant 0 <= k <= |rows| && valid == CountValid(rows[..k], silent)
        invariant contacts == UpsertAll(old(contacts), tenant, rows[..k], silent)
        invariant members == old(members) + Joined(group, Stored(tenant, rows[..k], silent))
      {
        var row := rows[k];
        assert rows[..k + 1][..k] == rows[..k];
        StoredMore(tenant, rows, k, silent);
        if row.phoneNumber !in silent {
          var key := (tenant, row.phoneNumber);
          contacts := contacts[key := Upserted(Lookup(contacts, key), row)];
          if group.Some? {
            members := members + {(group.value, key)};
          }
          valid := valid + 1;
        }
        k := k + 1;
      }
      assert rows[..k] == rows;
    }
  }

  function ErrorRows(upload: nat, errors: seq<RowError>): (rows: seq<(nat, RowError)>)
    ensures |rows| == |errors| && forall k :: 0 <= k < |errors| ==> rows[k] == (upload, errors[k])
  {
    seq(|errors|, k requires 0 <= k < |errors| => (upload, errors[k]))
  }

  lemma StoredMore(tenant: string, rows: seq<ContactRow>, k: nat, silent: set<string>)
    requires k < |rows|
    ensures Stored(tenant, rows[..k + 1], silent)
         == Stored(tenant, rows[..k], silent)
            + (if rows[k].phoneNumber in silent then {} else {(tenant, rows[k].phoneNumber)})
  {
    var more := rows[..k + 1];
    assert more[k] == rows[k];
    assert forall j :: 0 <= j < k ==> more[j] == rows[..k][j];
    forall key | key in Stored(tenant, rows[..k], silent)
      ensures key in Stored(tenant, more, silent)
    {
      var j :| 0 <= j < k && rows[..k][j].phoneNumber !in silent && key == (tenant, rows[..k][j].phoneNumber);
      assert more[j].phoneNumber == key.1;
    }
  }

  /** The recorded total is valid plus invalid exactly when every statement returned its row. */
  lemma {:induction false} TotalsAddUp(rows: seq<ContactRow>, silent: set<string>)
    ensures CountValid(rows, silent) == |rows| <==> forall k :: 0 <= k < |rows| ==> rows[k].phoneNumber !in silent
  {
    if rows != [] {
      TotalsAddUp(rows[..|rows| - 1], silent);
    }
  }

  /**
   Accepted numbers being distinct, each contact is written once, from its own row, and no
   other contact is touched.
   */
  lemma {:induction false} EachContactIsWrittenOnce(
    contacts: map<Key, Contact>, tenant: string, rows: seq<ContactRow>, silent: set<string>, key: Key)
    requires forall j, k :: 0 <= j < k < |rows| ==> rows[j].phoneNumber != rows[k].phoneNumber
    ensures var after := UpsertAll(contacts, tenant, rows, silent);
            && (key !in Stored(tenant, rows, silent) ==> Lookup(after, key) == Lookup(contacts, key))
            && (forall k ::
                  0 <= k < |rows| && key == (tenant, rows[k].phoneNumber) && rows[k].phoneNumber !in silent ==>
                  Lookup(after, key) == Some(Upserted(Lookup(contacts, key), rows[k])))
  {
    if rows != [] {
      var init, last := rows[..|rows| - 1], rows[|rows| - 1];
      EachContactIsWrittenOnce(contacts, tenant, init, silent, key);
      StoredMore(tenant, rows, |rows| - 1, silent);
      assert rows[..|rows|] == rows;
    }
  }

  /** The refusal that content deserves, or the account of its lines. */
  ghost predicate IsParseOf(content: string, delimiter: Option<char>, result: Result<Parsed>) {
    match Prepare(content, delimiter)
    case Err(e) => result == Err(e)
    case Ok((lines, layout)) =>
      result.Ok? && IsParse(ReadLines(lines, layout, delimiter), |lines|, result.value.rows, result.value.errors)
  }

  method ParseCsvContent(content: string, delimiter: Option<char>) returns (result: Result<Parsed>)
    ensures IsParseOf(content, delimiter, result)
  {
    var prepared := Prepare(content, delimiter);
    match prepared
    case Err(e) => result := Err(e);
    case Ok((lines, layout)) =>
      var parsed := ParseLines(ReadLines(lines, layout, delimiter));
      result := Ok(parsed);
  }

  // ----- what reading and recording come to -----

  predicate AllSpace(s: string) {
    forall k :: 0 <= k < |s| ==> IsSpace(s[k])
  }

  lemma BlankIsAllSpace(s: string)
    ensures Trim(s) == "" <==> AllSpace(s)
  {
    var i, j := TrimIs(s);
    assert i < j ==> !IsSpace(s[i]);
  }

  /** A text has one line more than it has line feeds. */
  lemma {:induction false} LinesCounted(s: string)
    ensures |SplitLines(s)| == multiset(s)['\n'] + 1
  {
    if s != "" {
      assert s == [s[0]] + s[1..];
      LinesCounted(s[1..]);
      if s[0] == '\r' && |s| > 1 && s[1] == '\n' {
        assert s[1..] == [s[1]] + s[2..];
        LinesCounted(s[2..]);
      }
    }
  }

  predicate IsFirst(headers: seq<string>, among: set<string>, at: nat) {
    at < |headers| && headers[at] in among && forall k :: 0 <= k < at ==> headers[k] !in among
  }

  predicate AnyOf(headers: seq<string>, among: set<string>) {
    exists k :: 0 <= k < |headers| && headers[k] in among
  }

  /**
   When content is refused, in the order of the checks, and which columns it is read by: the
   first phone column and the first name column, if there is one.
   */
  lemma RefusedOrLaidOut(content: string, delimiter: Option<char>)
    ensures var r, text := Prepare(content, delimiter), Trim(content);
            var headers := Columns(SplitLines(text)[0], delimiter);
            if AllSpace(content) then r == Err(EmptyContent)
            else if multiset(text)['\n'] > 100_000 then r == Err(TooManyRows)
            else if !AnyOf(headers, {"phone_number", "phoneNumber", "msisdn"}) then r == Err(NoPhoneColumn)
            else
              && r.Ok? && r.value.0 == SplitLines(text)
              && var layout := r.value.1;
              && layout.headers == headers
              && IsFirst(headers, {"phone_number", "phoneNumber", "msisdn"}, layout.phone)
              && (layout.name.Some? <==> AnyOf(headers, {"name", "full_name"}))
              && (layout.name.Some? ==> IsFirst(headers, {"name", "full_name"}, layout.name.value))
  {
    BlankIsAllSpace(content);
    LinesCounted(Trim(content));
    var headers := Columns(SplitLines(Trim(content))[0], delimiter);
    assert FindIndex(headers, PHONE_HEADERS).Some? <==> AnyOf(headers, PHONE_HEADERS);
    assert FindIndex(headers, NAME_HEADERS).Some? <==> AnyOf(headers, NAME_HEADERS);
  }

  /**
   What a line gives: its number from the phone column, its name when it reaches the name
   column, each other column under its header, and every column in the record kept for
   errors, where the last column of a repeated header counts and not the first.
   */
  lemma LineReads(line: string, layout: Layout, delimiter: Option<char>, header: string, first: nat, last: nat)
    requires IsFirst(layout.headers, {header}, first) && IsLast(layout.headers, |layout.headers|, header, last)
    ensures var d, columns := ReadLine(line, layout, delimiter), Columns(line, delimiter);
            && (d.blank <==> AllSpace(line))
            && d.phone == NormalizePhoneNumber(if layout.phone < |columns| then columns[layout.phone] else "")
            && (d.name.Some? <==> layout.name.Some? && layout.name.value < |columns|)
            && (d.name.Some? ==> d.name.value == columns[layout.name.value])
            && (header in d.metadata <==>
                 exists at: nat :: at < |layout.headers| && layout.headers[at] == header && at != layout.phone
                   && Some(at) != layout.name)
            && (header in d.metadata ==> d.metadata[header] == if first < |columns| then columns[first] else "")
            && header in d.rawRecord && d.rawRecord[header] == if last < |columns| then columns[last] else ""
  {
    var columns := Columns(line, delimiter);
    BlankIsAllSpace(line);
    RawRecordHolds(layout.headers, columns, |layout.headers|, header, last);
    MetadataHolds(layout, columns, |layout.headers|, header);
    assert (exists at: nat :: at < |layout.headers| && layout.headers[at] == header && IsMetadataColumn(layout, at))
      <==> exists at: nat :: at < |layout.headers| && layout.headers[at] == header && at != layout.phone
             && Some(at) != layout.name;
    assert FindIndex(layout.headers, {header}) == Some(first);
  }

  /** How many of the rows had their statement return. */
  lemma {:induction false} ValidCounted(rows: seq<ContactRow>, silent: set<string>)
    ensures CountValid(rows, silent) == |set k | 0 <= k < |rows| && rows[k].phoneNumber !in silent|
  {
    if rows != [] {
      var n := |rows| - 1;
      ValidCounted(rows[..n], silent);
      var before := set k | 0 <= k < n && rows[..n][k].phoneNumber !in silent;
      var all := set k | 0 <= k < |rows| && rows[k].phoneNumber !in silent;
      assert all == before + (if rows[n].phoneNumber in silent then {} else {n});
    }
  }

  /** The contact is the row's, over what was stored before: a name or value the row lacks stays. */
  ghost predicate Merges(before: Option<Contact>, after: Contact, row: ContactRow) {
    && after.name == (if row.name.Some? then row.name else if before.Some? then before.value.name else None)
    && (forall h :: h in after.metadata <==> h in row.metadata || (before.Some? && h in before.value.metadata))
    && (forall h :: h in row.metadata ==> after.metadata[h] == row.metadata[h])
    && (before.Some? ==> forall h :: h in before.value.metadata && h !in row.metadata ==>
          after.metadata[h] == before.value.metadata[h])
  }

  /**
   What an import leaves: one upload with its counts, an error row for each rejected line,
   each returned row merged into its contact and into the group, and nothing else.
   */
  lemma ImportRecords(t: Tables, tenant: string, group: Option<nat>, parsed: Parsed, silent: set<string>, key: Key)
    requires forall j, k :: 0 <= j < k < |parsed.rows| ==> parsed.rows[j].phoneNumber != parsed.rows[k].phoneNumber
    ensures var after, rows := Recorded(t, tenant, group, parsed, silent), parsed.rows;
            var returned := set k | 0 <= k < |rows| && rows[k].phoneNumber !in silent;
            && after.uploads == t.uploads
                 + [Upload(tenant, group, |rows| + |parsed.errors|, |returned|, |parsed.errors|)]
            && |after.uploadErrors| == |t.uploadErrors| + |parsed.errors|
            && after.uploadErrors[..|t.uploadErrors|] == t.uploadErrors
            && (forall k :: 0 <= k < |parsed.errors| ==>
                  after.uploadErrors[|t.uploadErrors| + k] == (|t.uploads|, parsed.errors[k]))
            && (forall k :: k in returned && key == (tenant, rows[k].phoneNumber) ==>
                  && key in after.contacts
                  && Merges(if key in t.contacts then Some(t.contacts[key]) else None, after.contacts[key], rows[k]))
            && ((forall k :: k in returned ==> key != (tenant, rows[k].phoneNumber)) ==>
                  && (key in after.contacts <==> key in t.contacts)
                  && (key in t.contacts ==> after.contacts[key] == t.contacts[key]))
            && forall g :: (g, key) in after.members <==>
                 (g, key) in t.members
                 || (group == Some(g) && exists k :: k in returned && key == (tenant, rows[k].phoneNumber))
  {
    EachContactIsWrittenOnce(t.contacts, tenant, parsed.rows, silent, key);
    ValidCounted(parsed.rows, silent);
  }
}
