/** The audit log's CSV export, against a reader that follows section 2 of RFC 4180. */
module CsvExport {
  import opened Common

  const EXPORT_ROW_CAP := 10_000

  /** One audit log row; `createdAt` and `metadata` are already text. */
  datatype AuditRow = AuditRow(
    id: string, action: string, createdAt: string, userId: Option<string>, userEmail: Option<string>,
    organizationId: Option<string>, organizationName: Option<string>, applicationId: Option<string>,
    applicationName: Option<string>, ipAddress: Option<string>, userAgent: Option<string>,
    metadata: Option<string>)

  const HEADER := [
    "id", "action", "createdAt", "userId", "userEmail", "organizationId", "organizationName",
    "applicationId", "applicationName", "ipAddress", "userAgent", "metadata"]

  const CRLF := "\r\n"

  function FieldsOf(r: AuditRow): seq<string> {
    [r.id, r.action, r.createdAt, r.userId.GetOr(""), r.userEmail.GetOr(""),
     r.organizationId.GetOr(""), r.organizationName.GetOr(""), r.applicationId.GetOr(""),
     r.applicationName.GetOr(""), r.ipAddress.GetOr(""), r.userAgent.GetOr(""),
     r.metadata.GetOr("")]
  }

  // ---- the writer ----

  predicate Special(c: char) {
    c == '"' || c == ',' || c == '\r' || c == '\n'
  }

  predicate NeedsQuotes(s: string) {
    exists i :: 0 <= i < |s| && Special(s[i])
  }

  function DoubleQuotes(s: string): string {
    if s == "" then "" else (if s[0] == '"' then "\"\"" else [s[0]]) + DoubleQuotes(s[1..])
  }

  function CsvEscape(s: string): string {
    if NeedsQuotes(s) then "\"" + DoubleQuotes(s) + "\"" else s
  }

  function Join(parts: seq<string>, separator: string): string {
    if parts == [] then ""
    else if |parts| == 1 then parts[0]
    else parts[0] + separator + Join(parts[1..], separator)
  }

  function EscapeAll(fields: seq<string>): (r: seq<string>)
    ensures |r| == |fields|
  {
    if fields == [] then [] else [CsvEscape(fields[0])] + EscapeAll(fields[1..])
  }

  /** The lines of records, given as their fields. */
  function Lines(records: seq<seq<string>>): seq<string> {
    if records == [] then []
    else Lines(records[..|records| - 1]) + [Join(EscapeAll(records[|records| - 1]), ",")]
  }

  /** The fields of the rows exported, behind the header. */
  function Records(rows: seq<AuditRow>): seq<seq<string>> {
    if rows == [] then [HEADER]
    else Records(rows[..|rows| - 1]) + [FieldsOf(rows[|rows| - 1])]
  }

  /** `exportCsv` on the matching rows: at most `EXPORT_ROW_CAP` of them, below the header line. */
  method ExportCsv(matching: seq<AuditRow>) returns (csv: string)
    ensures var rows := if |matching| <= 10_000 then matching else matching[..10_000];
            csv == Join(Lines(Records(rows)), CRLF)
  {
    hide Lines, Records, EscapeAll, Join, HEADER, FieldsOf;
    var rows := if |matching| <= EXPORT_ROW_CAP then matching else matching[..EXPORT_ROW_CAP];
    var lines := [Join(HEADER, ",")];
    HeaderIsPlain();
    var i := 0;
    assert rows[..0] == [];
    while i < |rows|
      invariant 0 <= i <= |rows|
      invariant lines == Lines(Records(rows[..i]))
    {
      lines := lines + [Join(EscapeAll(FieldsOf(rows[i])), ",")];
      OneMoreLine(rows, i);
      i := i + 1;
    }
    assert rows[..i] == rows;
    csv := Join(lines, CRLF);
  }

  lemma OneMoreLine(rows: seq<AuditRow>, i: nat)
    requires i < |rows|
    ensures Lines(Records(rows[..i + 1]))
         == Lines(Records(rows[..i])) + [Join(EscapeAll(FieldsOf(rows[i])), ",")]
  {
    assert rows[..i + 1][..i] == rows[..i];
    var records := Records(rows[..i]);
    assert (records + [FieldsOf(rows[i])])[..|records|] == records;
  }

  lemma {:induction false} PlainStays(fields: seq<string>)
    requires forall k :: 0 <= k < |fields| ==> !NeedsQuotes(fields[k])
    ensures EscapeAll(fields) == fields
  {
    if fields != [] {
      PlainStays(fields[1..]);
    }
  }

  /** A name spelled in letters needs no quotes. */
  predicate Letters(s: string) {
    forall i :: 0 <= i < |s| ==> 'A' <= s[i] <= 'z'
  }

  lemma HeaderIsLetters()
    ensures forall k :: 0 <= k < |HEADER| ==> Letters(HEADER[k])
  {
    assert Letters("id");
    assert Letters("action");
    assert Letters("createdAt");
    assert Letters("userId");
    assert Letters("userEmail");
    assert Letters("organizationId");
    assert Letters("organizationName");
    assert Letters("applicationId");
    assert Letters("applicationName");
    assert Letters("ipAddress");
    assert Letters("userAgent");
    assert Letters("metadata");
    hide Letters;
  }

  /** The header line is joined as it is, which is what escaping its names would give. */
  lemma HeaderIsPlain()
    ensures Lines(Records([])) == [Join(HEADER, ",")]
  {
    hide Join, HEADER;
    HeaderIsLetters();
    PlainStays(HEADER);
    assert [HEADER][..0] == [];
  }

  // ---- the reader ----

  /** A field without quotes runs up to the next special character. */
  function ReadPlain(s: string): (r: (string, string))
    ensures |r.1| <= |s|
  {
    if s == "" || Special(s[0]) then ("", s)
    else var (field, rest) := ReadPlain(s[1..]); ([s[0]] + field, rest)
  }

  /** A quoted field, past its opening quote; a pair of quotes in it stands for one. */
  function ReadQuoted(s: string): (r: Option<(string, string)>)
    ensures r.Some? ==> |r.value.1| < |s|
  {
    if s == "" then None
    else if s[0] != '"' then
      var r := ReadQuoted(s[1..]);
      if r.None? then None else Some(([s[0]] + r.value.0, r.value.1))
    else if |s| > 1 && s[1] == '"' then
      var r := ReadQuoted(s[2..]);
      if r.None? then None else Some(("\"" + r.value.0, r.value.1))
    else Some(("", s[1..]))
  }

  function ReadField(s: string): (r: Option<(string, string)>)
    ensures r.Some? ==> |r.value.1| <= |s|
  {
    if s != "" && s[0] == '"' then ReadQuoted(s[1..]) else Some(ReadPlain(s))
  }

  /** The fields up to a line break or the end, and what is left. */
  function ReadRecord(s: string): (r: Option<(seq<string>, string)>)
    ensures r.Some? ==> |r.value.1| <= |s|
    decreases |s|
  {
    var f := ReadField(s);
    if f.None? then None
    else
      var (field, rest) := f.value;
      if rest != "" && rest[0] == ',' then
        var r := ReadRecord(rest[1..]);
        if r.None? then None else Some(([field] + r.value.0, r.value.1))
      else Some(([field], rest))
  }

  /** Records separated by CRLF; the last one may have a line break behind it or not. */
  function ReadFile(s: string): Option<seq<seq<string>>>
    decreases |s|
  {
    var r := ReadRecord(s);
    if r.None? then None
    else
      var (record, rest) := r.value;
      if rest == "" || rest == CRLF then Some([record])
      else if CRLF <= rest then
        var more := ReadFile(rest[2..]);
        if more.None? then None else Some([record] + more.value)
      else None
  }

  // ---- reading back what was written ----

  lemma {:induction false} PlainReads(s: string, rest: string)
    requires !NeedsQuotes(s) && (rest == "" || Special(rest[0]))
    ensures ReadPlain(s + rest) == (s, rest)
  {
    if s == "" {
      assert s + rest == rest;
    } else {
      assert !Special(s[0]);
      forall i | 0 <= i < |s[1..]| ensures !Special(s[1..][i]) {
        assert s[1..][i] == s[i + 1];
      }
      PlainReads(s[1..], rest);
      assert (s + rest)[1..] == s[1..] + rest;
      assert [s[0]] + s[1..] == s;
    }
  }

  lemma {:induction false} QuotedReads(s: string, rest: string)
    requires rest == "" || rest[0] != '"'
    ensures ReadQuoted(DoubleQuotes(s) + "\"" + rest) == Some((s, rest))
  {
    var t := DoubleQuotes(s) + "\"" + rest;
    if s == "" {
      assert t == "\"" + rest;
      assert t[1..] == rest;
    } else {
      QuotedReads(s[1..], rest);
      var t' := DoubleQuotes(s[1..]) + "\"" + rest;
      assert [s[0]] + s[1..] == s;
      if s[0] == '"' {
        assert t == "\"\"" + t' && t[2..] == t';
      } else {
        assert t == [s[0]] + t' && t[1..] == t';
      }
    }
  }

  /** What may follow a field. */
  predicate Delimits(rest: string) {
    rest == "" || rest[0] == ',' || rest[0] == '\r'
  }

  lemma QuotedFieldReads(s: string, rest: string)
    requires NeedsQuotes(s) && Delimits(rest)
    ensures ReadField(CsvEscape(s) + rest) == Some((s, rest))
  {
    hide ReadQuoted, ReadPlain, DoubleQuotes, NeedsQuotes;
    var t := CsvEscape(s) + rest;
    QuotedReads(s, rest);
    assert t[1..] == DoubleQuotes(s) + "\"" + rest;
  }

  lemma PlainFieldReads(s: string, rest: string)
    requires !NeedsQuotes(s) && Delimits(rest)
    ensures ReadField(CsvEscape(s) + rest) == Some((s, rest))
  {
    hide ReadQuoted, ReadPlain, DoubleQuotes;
    PlainReads(s, rest);
    var t := s + rest;
    if s != "" {
      assert t[0] == s[0] && !Special(s[0]);
    } else {
      assert t == rest;
    }
  }

  lemma FieldReads(s: string, rest: string)
    requires Delimits(rest)
    ensures ReadField(CsvEscape(s) + rest) == Some((s, rest))
  {
    hide *;
    if NeedsQuotes(s) {
      QuotedFieldReads(s, rest);
    } else {
      PlainFieldReads(s, rest);
    }
  }

  lemma {:induction false} RecordReads(fields: seq<string>, rest: string)
    requires fields != [] && (rest == "" || rest[0] == '\r')
    ensures ReadRecord(Join(EscapeAll(fields), ",") + rest) == Some((fields, rest))
  {
    var line := Join(EscapeAll(fields), ",");
    if |fields| == 1 {
      assert line == CsvEscape(fields[0]);
      FieldReads(fields[0], rest);
      assert [fields[0]] == fields;
    } else {
      var tail := Join(EscapeAll(fields[1..]), ",");
      assert EscapeAll(fields)[1..] == EscapeAll(fields[1..]);
      assert line + rest == CsvEscape(fields[0]) + ("," + tail + rest);
      FieldReads(fields[0], "," + tail + rest);
      assert ("," + tail + rest)[1..] == tail + rest;
      RecordReads(fields[1..], rest);
      assert [fields[0]] + fields[1..] == fields;
    }
  }

  /** What a file of several records needs of each, so that an empty line cannot be one. */
  ghost predicate Readable(records: seq<seq<string>>) {
    records != [] && forall i :: 0 <= i < |records| ==> |records[i]| >= 2
  }

  lemma {:induction false} LinesFromTheFront(records: seq<seq<string>>)
    requires records != []
    ensures Lines(records) == [Join(EscapeAll(records[0]), ",")] + Lines(records[1..])
  {
    hide Join, EscapeAll;
    var n := |records| - 1;
    if n > 0 {
      LinesFromTheFront(records[..n]);
      assert records[..n][1..] == records[1..][..n - 1];
      assert records[1..][n - 1] == records[n];
    }
  }

  lemma JoinFromTheFront(first: string, others: seq<string>)
    requires others != []
    ensures Join([first] + others, CRLF) == first + CRLF + Join(others, CRLF)
  {
    assert ([first] + others)[1..] == others;
  }

  lemma {:induction false} OneLinePerRecord(records: seq<seq<string>>)
    ensures |Lines(records)| == |records|
  {
    if records != [] { OneLinePerRecord(records[..|records| - 1]); }
  }

  /** A record of two or more fields leaves at least a comma. */
  lemma LineIsLong(fields: seq<string>)
    requires |fields| >= 2
    ensures Join(EscapeAll(fields), ",") != ""
  {
    var parts := EscapeAll(fields);
    assert Join(parts, ",") == parts[0] + "," + Join(parts[1..], ",");
  }

  /** Reading a file gives back the records it was written from, whatever their fields hold. */
  lemma {:induction false} FileReads(records: seq<seq<string>>)
    requires Readable(records)
    ensures ReadFile(Join(Lines(records), CRLF)) == Some(records)
    decreases |records|
  {
    hide ReadRecord, EscapeAll, Lines;
    var line := Join(EscapeAll(records[0]), ",");
    var file := Join(Lines(records), CRLF);
    LinesFromTheFront(records);
    OneLinePerRecord(records[1..]);
    if |records| == 1 {
      assert file == line;
      RecordReads(records[0], "");
      assert line + "" == line;
      assert records == [records[0]];
    } else {
      var later := Join(Lines(records[1..]), CRLF);
      JoinFromTheFront(line, Lines(records[1..]));
      assert file == line + (CRLF + later);
      RecordReads(records[0], CRLF + later);
      FileReads(records[1..]);
      FileIsLong(records[1..]);
      assert (CRLF + later)[2..] == later;
      assert records == [records[0]] + records[1..];
    }
  }

  lemma FileIsLong(records: seq<seq<string>>)
    requires Readable(records)
    ensures Join(Lines(records), CRLF) != ""
  {
    hide EscapeAll, Lines;
    LinesFromTheFront(records);
    LineIsLong(records[0]);
  }

  lemma {:induction false} EveryRecordHasTwelveFields(rows: seq<AuditRow>)
    ensures |Records(rows)| == |rows| + 1 && Records(rows)[0] == HEADER
    ensures forall i :: 0 <= i < |rows| ==> Records(rows)[i + 1] == FieldsOf(rows[i])
    ensures Readable(Records(rows))
  {
    if rows != [] { EveryRecordHasTwelveFields(rows[..|rows| - 1]); }
  }

  /** The export of any rows reads back as the twelve column names and then each row's values in their columns. */
  lemma ExportReads(rows: seq<AuditRow>)
    ensures var file := ReadFile(Join(Lines(Records(rows)), CRLF));
            && file.Some? && |file.value| == |rows| + 1 && NamesColumns(file.value[0])
            && forall i :: 0 <= i < |rows| ==> HoldsColumns(file.value[i + 1], rows[i])
  {
    HeaderNamesColumns();
    hide *;
    forall i | 0 <= i < |rows| ensures HoldsColumns(FieldsOf(rows[i]), rows[i]) {
      FieldsHoldColumns(rows[i]);
    }
    EveryRecordHasTwelveFields(rows);
    FileReads(Records(rows));
  }

  /** The twelve column names, in order. */
  predicate NamesColumns(record: seq<string>) {
    && |record| == 12
    && record[0] == "id" && record[1] == "action" && record[2] == "createdAt"
    && record[3] == "userId" && record[4] == "userEmail"
    && record[5] == "organizationId" && record[6] == "organizationName"
    && record[7] == "applicationId" && record[8] == "applicationName"
    && record[9] == "ipAddress" && record[10] == "userAgent" && record[11] == "metadata"
  }

  /** A column shows the value it is named after, or nothing when there is none. */
  predicate Shown(column: string, value: Option<string>) {
    (value.Some? ==> column == value.value) && (value.None? ==> column == "")
  }

  predicate HoldsColumns(record: seq<string>, r: AuditRow) {
    && |record| == 12
    && record[0] == r.id && record[1] == r.action && record[2] == r.createdAt
    && Shown(record[3], r.userId) && Shown(record[4], r.userEmail)
    && Shown(record[5], r.organizationId) && Shown(record[6], r.organizationName)
    && Shown(record[7], r.applicationId) && Shown(record[8], r.applicationName)
    && Shown(record[9], r.ipAddress) && Shown(record[10], r.userAgent) && Shown(record[11], r.metadata)
  }

  lemma HeaderNamesColumns()
    ensures NamesColumns(HEADER)
  {
  }

  lemma FieldsHoldColumns(r: AuditRow)
    ensures HoldsColumns(FieldsOf(r), r)
  {
  }
}
