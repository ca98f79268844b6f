/** The helper's profile report: a tab-separated text of names and status codes,
    bounded in records and in bytes. */
module ProfileReport {
  import opened Amneziawg
  import opened Text

  const MAX_RECORDS: nat := 256
  const MAX_SIZE: nat := 8192
  const VERSION: nat := 1
  const MAX_STATUS: nat := 4
  const MAGIC: string := "NM-SIDEBAR-AWG-PROFILES"

  datatype Record = Record(name: string, status: nat)

  datatype Report = Report(records: seq<Record>, complete: bool)

  datatype HelperStatus = StatusSuccess | StatusPartial | StatusOther

  predicate RecordIsValid(r: Record) {
    NameIsValid(r.name) && r.status <= MAX_STATUS
  }

  predicate HasName(records: seq<Record>, name: string) {
    exists i | 0 <= i < |records| :: records[i].name == name
  }

  predicate RecordsAreValid(records: seq<Record>) {
    && |records| <= MAX_RECORDS
    && (forall i | 0 <= i < |records| :: RecordIsValid(records[i]))
    && (forall i, j | 0 <= i < j < |records| :: records[i].name != records[j].name)
  }

  /** The records with one more, if it may be added. */
  function Added(records: seq<Record>, r: Record): Option<seq<Record>> {
    if |records| >= MAX_RECORDS || !RecordIsValid(r) || HasName(records, r.name) then None else Some(records + [r])
  }

  // ------------------------------------------------------------------------
  // Encoding
  // ------------------------------------------------------------------------

  function HeaderLine(count: nat, complete: bool): string {
    MAGIC + "\t" + Decimal(VERSION) + "\t" + Decimal(count) + "\t" + Decimal(if complete then 1 else 0)
  }

  function RecordLine(r: Record): string {
    Decimal(r.status) + "\t" + r.name
  }

  function RecordText(records: seq<Record>): string {
    if records == [] then [] else RecordLine(records[0]) + "\n" + RecordText(records[1..])
  }

  function EncodedText(report: Report): string {
    HeaderLine(|report.records|, report.complete) + "\n" + RecordText(report.records)
  }

  function Encode(report: Report): Option<string> {
    if RecordsAreValid(report.records) && |EncodedText(report)| <= MAX_SIZE then Some(EncodedText(report)) else None
  }

  // ------------------------------------------------------------------------
  // Decoding
  // ------------------------------------------------------------------------

  /** The parts between separators, as `g_strsplit` cuts a text that is not empty. */
  function Split(text: string, c: char): (r: seq<string>)
    ensures r != []
    decreases |text|
  {
    var at := Find(text, c);
    if at.None? then [text] else [text[..at.value]] + Split(text[at.value + 1..], c)
  }

  function ParseUint(text: string, maximum: nat): Option<nat> {
    if text != [] && AllDigits(text) && DecimalValue(text) <= maximum then Some(DecimalValue(text)) else None
  }

  datatype Header = Header(count: nat, complete: bool)

  function ParseHeader(line: string): Option<Header> {
    var fields := Split(line, '\t');
    if |fields| != 4 || fields[0] != MAGIC || ParseUint(fields[1], UINT_MAX) != Some(VERSION) then None
    else
      var count, complete := ParseUint(fields[2], MAX_RECORDS), ParseUint(fields[3], 1);
      if count.None? || complete.None? then None else Some(Header(count.value, complete.value != 0))
  }

  function ParseRecord(line: string): Option<Record> {
    var fields := Split(line, '\t');
    if |fields| != 2 then None
    else
      var status := ParseUint(fields[0], UINT_MAX);
      if status.None? then None else Some(Record(fields[1], status.value))
  }

  /** Records read line by line, each added to those before it. */
  function ReadRecords(records: seq<Record>, lines: seq<string>): Option<seq<Record>>
    decreases |lines|
  {
    if lines == [] then Some(records)
    else
      var r := ParseRecord(lines[0]);
      var more := if r.Some? then Added(records, r.value) else None;
      if more.None? then None else ReadRecords(more.value, lines[1..])
  }

  function Decode(data: string, status: HelperStatus): Option<Report> {
    if status.StatusOther? || data == [] || |data| > MAX_SIZE || data[|data| - 1] != '\n' || Find(data, '\0').Some? then
      None
    else
      var lines := Split(data, '\n');
      var header := ParseHeader(lines[0]);
      if header.None? || |lines| != header.value.count + 2 || lines[header.value.count + 1] != []
         || status.StatusSuccess? != header.value.complete then None
      else
        var records := ReadRecords([], lines[1..header.value.count + 1]);
        if records.None? then None else Some(Report(records.value, header.value.complete))
  }

  // ------------------------------------------------------------------------
  // Splitting
  // ------------------------------------------------------------------------

  lemma SplitHead(head: string, c: char, rest: string)
    requires forall i | 0 <= i < |head| :: head[i] != c
    ensures Split(head + [c] + rest, c) == [head] + Split(rest, c)
  {
    hide Find;
    var text := head + [c] + rest;
    FoundAt(text, c, |head|);
    assert text[..|head|] == head && text[|head| + 1..] == rest;
  }

  lemma SplitWhole(text: string, c: char)
    requires forall i | 0 <= i < |text| :: text[i] != c
    ensures Split(text, c) == [text]
  {
    hide Find;
    NotFound(text, c);
  }

  function Unsplit(parts: seq<string>, c: char): string {
    if parts == [] then [] else if |parts| == 1 then parts[0] else parts[0] + [c] + Unsplit(parts[1..], c)
  }

  lemma {:induction false} UnsplitSplit(text: string, c: char)
    ensures Unsplit(Split(text, c), c) == text
    ensures forall k, i | 0 <= k < |Split(text, c)| && 0 <= i < |Split(text, c)[k]| :: Split(text, c)[k][i] != c
    decreases |text|
  {
    var at := Find(text, c);
    FindFirst(text, c);
    if at.Some? {
      var head, rest := text[..at.value], text[at.value + 1..];
      UnsplitSplit(rest, c);
      assert ([head] + Split(rest, c))[1..] == Split(rest, c);
      assert text == head + [c] + rest;
    }
  }

  // ------------------------------------------------------------------------
  // Round trips
  // ------------------------------------------------------------------------

  lemma ShortDecimal(n: nat)
    requires n <= MAX_RECORDS
    ensures |Decimal(n)| <= 3 && (n < 10 ==> |Decimal(n)| == 1)
    ensures ParseUint(Decimal(n), n) == Some(n) && forall m :: m >= n ==> ParseUint(Decimal(n), m) == Some(n)
  {
    DecimalCanonical(n);
    assert Power10(3) == 1000;
    DecimalLength(n, 3, 1000);
  }

  lemma NameIsPlain(name: string)
    requires NameIsValid(name)
    ensures forall i | 0 <= i < |name| :: name[i] != '\t' && name[i] != '\n' && name[i] != '\0'
    ensures |name| <= 15
  {
  }

  lemma {:induction false} RecordTextLength(records: seq<Record>)
    requires forall i | 0 <= i < |records| :: RecordIsValid(records[i])
    ensures |RecordText(records)| <= 18 * |records|
  {
    hide Decimal, NameIsValid;
    if records != [] {
      ShortDecimal(records[0].status);
      NameIsPlain(records[0].name);
      RecordTextLength(records[1..]);
    }
  }

  /** The size limit is never in the way: every report that may be built encodes. */
  lemma EveryReportEncodes(report: Report)
    ensures Encode(report).Some? <==> RecordsAreValid(report.records)
  {
    hide Decimal, RecordIsValid;
    if RecordsAreValid(report.records) {
      RecordTextLength(report.records);
      ShortDecimal(|report.records|);
      ShortDecimal(VERSION);
      ShortDecimal(if report.complete then 1 else 0);
      assert |MAGIC| == 23;
    }
  }

  lemma HeaderParses(count: nat, complete: bool)
    requires count <= MAX_RECORDS
    ensures ParseHeader(HeaderLine(count, complete)) == Some(Header(count, complete))
    ensures forall i | 0 <= i < |HeaderLine(count, complete)| ::
              HeaderLine(count, complete)[i] != '\n' && HeaderLine(count, complete)[i] != '\0'
  {
    hide Decimal, ParseUint, Split, AllDigits;
    var flag: nat := if complete then 1 else 0;
    var v, n, f := Decimal(VERSION), Decimal(count), Decimal(flag);
    ShortDecimal(VERSION);
    ShortDecimal(count);
    ShortDecimal(flag);
    PlainFields(v);
    PlainFields(n);
    PlainFields(f);
    assert HeaderLine(count, complete) == MAGIC + "\t" + (v + "\t" + (n + "\t" + f));
    SplitHead(MAGIC, '\t', v + "\t" + (n + "\t" + f));
    SplitHead(v, '\t', n + "\t" + f);
    SplitHead(n, '\t', f);
    SplitWhole(f, '\t');
    MagicIsPlain();
  }

  lemma MagicIsPlain()
    ensures forall i | 0 <= i < |MAGIC| :: MAGIC[i] != '\t' && MAGIC[i] != '\n' && MAGIC[i] != '\0'
  {
  }

  lemma PlainFields(s: string)
    requires AllDigits(s)
    ensures forall i | 0 <= i < |s| :: s[i] != '\t' && s[i] != '\n' && s[i] != '\0'
  {
  }

  lemma RecordParses(r: Record)
    requires RecordIsValid(r)
    ensures ParseRecord(RecordLine(r)) == Some(r)
    ensures forall i | 0 <= i < |RecordLine(r)| :: RecordLine(r)[i] != '\n' && RecordLine(r)[i] != '\0'
  {
    hide Decimal, ParseUint, Split, AllDigits, NameIsValid;
    ShortDecimal(r.status);
    PlainFields(Decimal(r.status));
    NameIsPlain(r.name);
    SplitHead(Decimal(r.status), '\t', r.name);
    SplitWhole(r.name, '\t');
  }

  function RecordLines(records: seq<Record>): seq<string> {
    if records == [] then [] else [RecordLine(records[0])] + RecordLines(records[1..])
  }

  lemma {:induction false} RecordTextSplits(records: seq<Record>)
    requires forall i | 0 <= i < |records| :: RecordIsValid(records[i])
    ensures Split(RecordText(records), '\n') == RecordLines(records) + [[]]
    ensures forall i | 0 <= i < |RecordText(records)| :: RecordText(records)[i] != '\0'
  {
    hide Split, RecordLine, RecordIsValid;
    if records == [] {
      SplitWhole([], '\n');
    } else {
      RecordTextSplits(records[1..]);
      RecordParses(records[0]);
      SplitHead(RecordLine(records[0]), '\n', RecordText(records[1..]));
    }
  }

  lemma {:induction false} RecordsRead(before: seq<Record>, records: seq<Record>)
    requires RecordsAreValid(before + records)
    ensures ReadRecords(before, RecordLines(records)) == Some(before + records)
    decreases |records|
  {
    hide ParseRecord, RecordLine, RecordIsValid;
    if records == [] {
      assert before + [] == before;
    } else {
      var all, first := before + records, records[0];
      assert all[|before|] == first && forall i | 0 <= i < |before| :: all[i] == before[i];
      RecordParses(first);
      assert before + [first] + records[1..] == all;
      RecordsRead(before + [first], records[1..]);
      assert ([RecordLine(first)] + RecordLines(records[1..]))[1..] == RecordLines(records[1..]);
    }
  }

  lemma {:induction false} RecordLinesCount(records: seq<Record>)
    ensures |RecordLines(records)| == |records|
  {
    if records != [] {
      RecordLinesCount(records[1..]);
    }
  }

  lemma EncodedEnds(report: Report)
    requires RecordsAreValid(report.records)
    ensures var text := EncodedText(report); text != [] && text[|text| - 1] == '\n'
  {
    hide HeaderLine;
    RecordTextEnds(report.records);
  }

  lemma {:induction false} RecordTextEnds(records: seq<Record>)
    ensures records != [] ==> RecordText(records) != [] && RecordText(records)[|RecordText(records)| - 1] == '\n'
  {
    hide RecordLine;
    if records != [] {
      RecordTextEnds(records[1..]);
    }
  }

  /** Every report built by adding encodes, and decodes under the status that
      matches its completeness to itself; under the other it is refused. */
  lemma ReportRoundTrip(report: Report)
    requires RecordsAreValid(report.records)
    ensures Encode(report).Some?
    ensures Decode(Encode(report).value, if report.complete then StatusSuccess else StatusPartial) == Some(report)
    ensures Decode(Encode(report).value, if report.complete then StatusPartial else StatusSuccess) == None
  {
    hide HeaderLine, RecordText, RecordLines, ParseHeader, ReadRecords, Split, Find, RecordIsValid;
    EveryReportEncodes(report);
    EncodedEnds(report);
    var records, count := report.records, |report.records|;
    var head, text := HeaderLine(count, report.complete), EncodedText(report);
    HeaderParses(count, report.complete);
    RecordTextSplits(records);
    RecordLinesCount(records);
    SplitHead(head, '\n', RecordText(records));
    NotFound(text, '\0');
    var lines := Split(text, '\n');
    assert lines == [head] + RecordLines(records) + [[]];
    assert lines[1..count + 1] == RecordLines(records);
    assert [] + records == records;
    RecordsRead([], records);
  }

  lemma AddedIsValid(records: seq<Record>, r: Record)
    requires RecordsAreValid(records) && Added(records, r).Some?
    ensures RecordsAreValid(Added(records, r).value)
  {
  }

  lemma {:induction false} ReadIsValid(records: seq<Record>, lines: seq<string>)
    requires RecordsAreValid(records) && ReadRecords(records, lines).Some?
    ensures RecordsAreValid(ReadRecords(records, lines).value)
    ensures |ReadRecords(records, lines).value| == |records| + |lines|
    decreases |lines|
  {
    hide ParseRecord, RecordsAreValid, RecordIsValid, HasName;
    if lines != [] {
      var more := Added(records, ParseRecord(lines[0]).value);
      AddedIsValid(records, ParseRecord(lines[0]).value);
      ReadIsValid(more.value, lines[1..]);
    }
  }

  /** Decoding never yields an invalid or repeated name, nor more records than the
      limit; what it yields can be encoded again and decodes to the same. */
  lemma DecodedIsValid(data: string, status: HelperStatus)
    requires Decode(data, status).Some?
    ensures var report := Decode(data, status).value;
            && RecordsAreValid(report.records) && (report.complete <==> status.StatusSuccess?)
            && Encode(report).Some? && Decode(Encode(report).value, status) == Some(report)
  {
    hide ParseHeader, ReadRecords, Split, Find, Encode, RecordIsValid;
    var header := ParseHeader(Split(data, '\n')[0]).value;
    ReadIsValid([], Split(data, '\n')[1..header.count + 1]);
    ReportRoundTrip(Decode(data, status).value);
  }

  // ------------------------------------------------------------------------
  // Which texts are canonical
  // ------------------------------------------------------------------------

  predicate HeaderIsCanonical(line: string) {
    var fields := Split(line, '\t');
    |fields| == 4 && CanonicalDecimal(fields[1]) && CanonicalDecimal(fields[2]) && CanonicalDecimal(fields[3])
  }

  predicate RecordIsCanonical(line: string) {
    CanonicalDecimal(Split(line, '\t')[0])
  }

  /** Every number in a text written without needless zeros. */
  predicate NumbersAreCanonical(data: string) {
    var lines := Split(data, '\n');
    && HeaderIsCanonical(lines[0])
    && forall i | 1 <= i < |lines| - 1 :: RecordIsCanonical(lines[i])
  }

  lemma CanonicalField(field: string, n: nat, maximum: nat)
    requires ParseUint(field, maximum) == Some(n)
    ensures CanonicalDecimal(field) <==> field == Decimal(n)
  {
    DecimalCanonical(n);
    if CanonicalDecimal(field) {
      CanonicalDecimalUnique(field);
    }
  }

  lemma FourFields(line: string, fields: seq<string>)
    requires fields == Split(line, '\t') && |fields| == 4
    ensures line == fields[0] + "\t" + fields[1] + "\t" + fields[2] + "\t" + fields[3]
  {
    hide Split;
    UnsplitSplit(line, '\t');
    assert fields[1..][1..] == fields[2..] && fields[2..][1..] == fields[3..];
    assert Unsplit(fields[3..], '\t') == fields[3];
    assert Unsplit(fields[2..], '\t') == fields[2] + "\t" + fields[3];
    assert Unsplit(fields[1..], '\t') == fields[1] + "\t" + (fields[2] + "\t" + fields[3]);
  }

  lemma HeaderCanonicalIff(line: string, h: Header)
    requires ParseHeader(line) == Some(h)
    ensures HeaderIsCanonical(line) <==> line == HeaderLine(h.count, h.complete)
  {
    hide Split, Decimal, ParseUint, CanonicalDecimal;
    var fields := Split(line, '\t');
    var flag: nat := ParseUint(fields[3], 1).value;
    CanonicalField(fields[1], VERSION, UINT_MAX);
    CanonicalField(fields[2], h.count, MAX_RECORDS);
    CanonicalField(fields[3], flag, 1);
    FourFields(line, fields);
    assert flag == if h.complete then 1 else 0 by {
      FlagValue(fields[3]);
    }
    if line == HeaderLine(h.count, h.complete) {
      HeaderFields(h.count, h.complete);
    }
  }

  lemma FlagValue(field: string)
    requires ParseUint(field, 1).Some?
    ensures ParseUint(field, 1).value <= 1
  {
  }

  lemma HeaderFields(count: nat, complete: bool)
    ensures Split(HeaderLine(count, complete), '\t')
            == [MAGIC, Decimal(VERSION), Decimal(count), Decimal(if complete then 1 else 0)]
  {
    hide Decimal, Split, AllDigits;
    var v, n, f := Decimal(VERSION), Decimal(count), Decimal(if complete then 1 else 0);
    PlainFields(v);
    PlainFields(n);
    PlainFields(f);
    assert HeaderLine(count, complete) == MAGIC + "\t" + (v + "\t" + (n + "\t" + f));
    SplitHead(MAGIC, '\t', v + "\t" + (n + "\t" + f));
    SplitHead(v, '\t', n + "\t" + f);
    SplitHead(n, '\t', f);
    SplitWhole(f, '\t');
    MagicIsPlain();
  }

  lemma RecordCanonicalIff(line: string, r: Record)
    requires ParseRecord(line) == Some(r)
    ensures RecordIsCanonical(line) <==> line == RecordLine(r)
  {
    hide Split, Decimal, ParseUint, CanonicalDecimal;
    var fields := Split(line, '\t');
    CanonicalField(fields[0], r.status, UINT_MAX);
    UnsplitSplit(line, '\t');
    assert fields[1..][0] == fields[1] && Unsplit(fields[1..], '\t') == fields[1];
    assert line == fields[0] + "\t" + fields[1];
    if line == RecordLine(r) {
      CutAt(fields[0], Decimal(r.status), fields[1]);
    }
  }

  lemma CutAt(a: string, b: string, tail: string)
    requires a + "\t" + tail == b + "\t" + tail
    ensures a == b
  {
    assert |a| == |b|;
    assert forall i | 0 <= i < |a| :: a[i] == (a + "\t" + tail)[i] == (b + "\t" + tail)[i] == b[i];
  }

  lemma {:induction false} ReadCanonicalIff(before: seq<Record>, lines: seq<string>)
    requires ReadRecords(before, lines).Some?
    ensures var all := ReadRecords(before, lines).value;
            && before <= all
            && ((forall i | 0 <= i < |lines| :: RecordIsCanonical(lines[i])) <==> lines == RecordLines(all[|before|..]))
    decreases |lines|
  {
    hide ParseRecord, RecordIsCanonical, RecordLine, RecordIsValid;
    if lines != [] {
      var r := ParseRecord(lines[0]).value;
      var rest := ReadRecords(before + [r], lines[1..]);
      ReadCanonicalIff(before + [r], lines[1..]);
      RecordCanonicalIff(lines[0], r);
      var all := rest.value;
      assert all[|before|..] == [r] + all[|before| + 1..];
      assert all[|before|..][1..] == all[|before| + 1..];
      assert lines == [lines[0]] + lines[1..];
      assert forall i | 1 <= i < |lines| :: lines[i] == lines[1..][i - 1];
      if forall i | 0 <= i < |lines| :: RecordIsCanonical(lines[i]) {
        assert forall i | 0 <= i < |lines[1..]| :: RecordIsCanonical(lines[1..][i]);
      }
    } else {
      assert before[|before|..] == [];
    }
  }

  /** A report is not tied to one text: a text decodes whatever zeros its numbers
      start with, and is the encoding of what it decodes to exactly when it has
      none. */
  lemma CanonicalExactly(data: string, status: HelperStatus)
    requires Decode(data, status).Some?
    ensures Encode(Decode(data, status).value) == Some(data) <==> NumbersAreCanonical(data)
  {
    hide ParseHeader, ReadRecords, Split, Find, RecordIsValid, HeaderLine, RecordText, RecordLines, HeaderIsCanonical,
         RecordIsCanonical;
    var report, lines := Decode(data, status).value, Split(data, '\n');
    var header := ParseHeader(lines[0]).value;
    var body := lines[1..header.count + 1];
    ReadIsValid([], body);
    EveryReportEncodes(report);
    HeaderCanonicalIff(lines[0], header);
    ReadCanonicalIff([], body);
    assert report.records[0..] == report.records;
    assert lines == [lines[0]] + body + [[]];
    assert NumbersAreCanonical(data) <==>
             lines[0] == HeaderLine(header.count, header.complete) && body == RecordLines(report.records) by {
      assert forall i | 0 <= i < |body| :: body[i] == lines[i + 1];
      assert forall i | 1 <= i < |lines| - 1 :: lines[i] == body[i - 1];
    }
    EncodedSplits(report);
    UnsplitSplit(data, '\n');
    UnsplitSplit(EncodedText(report), '\n');
    SameParts(lines[0], body, HeaderLine(header.count, header.complete), RecordLines(report.records));
  }

  lemma EncodedSplits(report: Report)
    requires RecordsAreValid(report.records)
    ensures Split(EncodedText(report), '\n')
              == [HeaderLine(|report.records|, report.complete)] + RecordLines(report.records) + [[]]
  {
    hide HeaderLine, RecordText, RecordLines, Split, Find, RecordIsValid, ParseHeader;
    HeaderParses(|report.records|, report.complete);
    RecordTextSplits(report.records);
    SplitHead(HeaderLine(|report.records|, report.complete), '\n', RecordText(report.records));
  }

  lemma SameParts(h1: string, b1: seq<string>, h2: string, b2: seq<string>)
    ensures [h1] + b1 + [[]] == [h2] + b2 + [[]] <==> h1 == h2 && b1 == b2
  {
    var p1, p2 := [h1] + b1 + [[]], [h2] + b2 + [[]];
    if p1 == p2 {
      assert p1[0] == p2[0];
      assert |b1| == |b2|;
      assert forall i | 0 <= i < |b1| :: b1[i] == p1[i + 1] == p2[i + 1] == b2[i];
    }
  }

  // ------------------------------------------------------------------------
  // The report as an object
  // ------------------------------------------------------------------------

  class ReportObject {
    var records: seq<Record>
    var complete: bool

    ghost predicate Valid()
      reads this
    {
      RecordsAreValid(records)
    }

    function View(): Report
      reads this
    {
      Report(records, complete)
    }

    constructor ()
      ensures Valid() && View() == Report([], true)
    {
      records, complete := [], true;
    }

    method Add(name: string, status: nat) returns (ok: bool)
      requires Valid()
      modifies this`records
      ensures Valid() && ok == Added(old(records), Record(name, status)).Some?
      ensures records == if ok then Added(old(records), Record(name, status)).value else old(records)
    {
      hide NameIsValid;
      if |records| >= MAX_RECORDS || !NameIsValid(name) || status > MAX_STATUS {
        return false;
      }
      for i := 0 to |records|
        invariant forall k | 0 <= k < i :: records[k].name != name
        invariant records == old(records)
      {
        if records[i].name == name {
          return false;
        }
      }
      AddedIsValid(records, Record(name, status));
      records := records + [Record(name, status)];
      ok := true;
    }
  }

  lemma {:induction false} RecordTextSnoc(records: seq<Record>, i: nat)
    requires i < |records|
    ensures RecordText(records[..i + 1]) == RecordText(records[..i]) + RecordLine(records[i]) + "\n"
  {
    hide RecordLine;
    if i == 0 {
      assert records[..1] == [records[0]] && records[..1][1..] == [];
    } else {
      RecordTextSnoc(records[1..], i - 1);
      assert records[..i + 1][1..] == records[1..][..i] && records[..i][1..] == records[1..][..i - 1];
    }
  }

  /** The encoder's loop, which checks every record again as it writes it. */
  method EncodeReport(report: Report) returns (r: Option<string>)
    ensures r == Encode(report)
  {
    hide NameIsValid, RecordLine, HeaderLine;
    var records := report.records;
    if |records| > MAX_RECORDS {
      return None;
    }
    var output := HeaderLine(|records|, report.complete) + "\n";
    ghost var head := output;
    var names: set<string> := {};
    for i := 0 to |records|
      invariant output == head + RecordText(records[..i])
      invariant names == set k | 0 <= k < i :: records[k].name
      invariant forall k | 0 <= k < i :: RecordIsValid(records[k])
      invariant forall j, k | 0 <= j < k < i :: records[j].name != records[k].name
    {
      if !NameIsValid(records[i].name) || records[i].status > MAX_STATUS || records[i].name in names {
        return None;
      }
      RecordTextSnoc(records, i);
      names := names + {records[i].name};
      output := output + RecordLine(records[i]) + "\n";
    }
    assert records[..|records|] == records;
    r := if |output| > MAX_SIZE then None else Some(output);
  }

  method DecodeReport(data: string, status: HelperStatus) returns (r: Option<Report>)
    ensures r == Decode(data, status)
  {
    hide ParseHeader, ParseRecord, Split, Find, RecordIsValid;
    if status.StatusOther? || data == [] || |data| > MAX_SIZE || data[|data| - 1] != '\n' {
      return None;
    }
    var nul := FindByte(data, '\0');
    if nul.Some? {
      return None;
    }
    var lines := Split(data, '\n');
    var header := ParseHeader(lines[0]);
    if header.None? || |lines| != header.value.count + 2 || lines[header.value.count + 1] != []
       || status.StatusSuccess? != header.value.complete {
      return None;
    }
    var body := lines[1..header.value.count + 1];
    var report := new ReportObject();
    report.complete := header.value.complete;
    for i := 0 to header.value.count
      invariant report.Valid() && report.complete == header.value.complete
      invariant ReadRecords([], body) == ReadRecords(report.records, body[i..])
    {
      assert body[i..][0] == lines[i + 1] && body[i..][1..] == body[i + 1..];
      var record := ParseRecord(lines[i + 1]);
      if record.None? {
        return None;
      }
      var ok := report.Add(record.value.name, record.value.status);
      if !ok {
        return None;
      }
    }
    r := Some(report.View());
  }
}
