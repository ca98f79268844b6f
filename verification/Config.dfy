/** The configuration envelope: a line scanner that rejects command hooks and pulls
    out DNS settings and the directives only awg-quick understands, and the
    snapshot that splices those directives back into a stripped configuration. */
module Config {
  import opened Amneziawg
  import opened Text
  import opened DnsConfig

  const MAX_CONFIG_SIZE: nat := 1024 * 1024

  datatype ConfigError = InvalidData | TooLarge | UnsafeDirective | MissingStructure

  datatype Result<+T> = Ok(value: T) | Err(error: ConfigError) {
    predicate IsFailure() {
      Err?
    }

    function PropagateFailure<U>(): Result<U>
      requires Err?
    {
      Err(error)
    }

    function Extract(): T
      requires Ok?
    {
      value
    }
  }

  // ------------------------------------------------------------------------
  // Keys and names
  // ------------------------------------------------------------------------

  function Lower(c: char): char {
    if 'A' <= c <= 'Z' then (c as int + 32) as char else c
  }

  /** Equality without regard to ASCII case. */
  predicate SpanEqual(s: string, text: string) {
    |s| == |text| && forall i | 0 <= i < |s| :: Lower(s[i]) == Lower(text[i])
  }

  predicate IsUnsafeDirective(key: string) {
    SpanEqual(key, "PreUp") || SpanEqual(key, "PostUp") || SpanEqual(key, "PreDown") || SpanEqual(key, "PostDown")
  }

  /** The canonical name of a directive only awg-quick understands. */
  function QuickName(key: string): Option<string> {
    if SpanEqual(key, "Address") then Some("Address")
    else if SpanEqual(key, "MTU") then Some("MTU")
    else if SpanEqual(key, "Table") then Some("Table")
    else if SpanEqual(key, "SaveConfig") then Some("SaveConfig")
    else None
  }

  predicate TokenIsSafe(s: string) {
    s != [] && forall i | 0 <= i < |s| :: !IsSpace(s[i]) && s[i] != '[' && s[i] != ']' && s[i] != '=' && s[i] != '#'
  }

  predicate IsControl(c: char) {
    c as int < 0x20 && c != '\t' && c != '\r'
  }

  predicate HasControl(s: string) {
    exists i | 0 <= i < |s| :: IsControl(s[i])
  }

  // ------------------------------------------------------------------------
  // Lines
  // ------------------------------------------------------------------------

  /** The physical lines, each with its newline if it has one. */
  function Lines(data: string): seq<string> {
    if data == [] then []
    else
      var newline := Find(data, '\n');
      if newline.None? then [data] else [data[..newline.value + 1]] + Lines(data[newline.value + 1..])
  }

  predicate EndsLine(s: string) {
    s != [] && s[|s| - 1] == '\n'
  }

  /** A line without its newline and without a comment. */
  function Stripped(physical: string): string {
    var body := if EndsLine(physical) then physical[..|physical| - 1] else physical;
    var comment := Find(body, '#');
    if comment.Some? then body[..comment.value] else body
  }

  lemma FindInPrefix(a: string, b: string, c: char)
    requires Find(a, c).Some?
    ensures Find(a + b, c) == Find(a, c)
  {
    FindFirst(a, c);
    FoundAt(a + b, c, Find(a, c).value);
  }

  /** Text that ends at the end of a line can be taken line by line on its own. */
  lemma {:induction false} LinesConcat(a: string, b: string)
    requires a == [] || EndsLine(a)
    ensures Lines(a + b) == Lines(a) + Lines(b)
    decreases |a|
  {
    if a == [] {
      assert a + b == b;
    } else {
      FindFirst(a, '\n');
      var n := Find(a, '\n').value;
      FindInPrefix(a, b, '\n');
      hide Find;
      var rest := a[n + 1..];
      assert rest == [] || EndsLine(rest);
      assert (a + b)[..n + 1] == a[..n + 1] && (a + b)[n + 1..] == rest + b;
      LinesConcat(rest, b);
      assert Lines(a) == [a[..n + 1]] + Lines(rest) && Lines(a + b) == [a[..n + 1]] + Lines(rest + b);
      ConcatAssociates([a[..n + 1]], Lines(rest), Lines(b));
    }
  }

  lemma OneLine(line: string)
    requires EndsLine(line) && forall i | 0 <= i < |line| - 1 :: line[i] != '\n'
    ensures Lines(line) == [line]
  {
    FoundAt(line, '\n', |line| - 1);
    assert line[..|line|] == line && line[|line|..] == [];
    assert Lines(line[|line|..]) == [];
  }

  function Joined(lines: seq<string>): string {
    if lines == [] then [] else lines[0] + Joined(lines[1..])
  }

  lemma {:induction false} LinesJoin(data: string)
    ensures Joined(Lines(data)) == data
    decreases |data|
  {
    if data != [] {
      var newline := Find(data, '\n');
      if newline.Some? {
        LinesJoin(data[newline.value + 1..]);
        assert data == data[..newline.value + 1] + data[newline.value + 1..];
      } else {
        assert [data][1..] == [];
        assert Joined([data]) == data + [];
      }
    }
  }

  // ------------------------------------------------------------------------
  // The scanner
  // ------------------------------------------------------------------------

  datatype Section = NoSection | InInterface | InOther

  datatype Scan = Scan(section: Section, seen: bool, quick: string, dns: DnsConfig, lineEnd: nat, offset: nat)

  const START := Scan(NoSection, false, [], EMPTY_DNS, 0, 0)

  function QuickLine(name: string, value: string): string {
    name + " = " + value + "\n"
  }

  function StepSection(st: Scan, line: string): Result<Scan>
    requires line != []
  {
    if line[|line| - 1] != ']' || |line| < 2 || !TokenIsSafe(line[1..|line| - 1]) then Err(InvalidData)
    else if SpanEqual(line[1..|line| - 1], "Interface") then
      if st.seen || st.section != NoSection then Err(InvalidData)
      else Ok(st.(seen := true, section := InInterface, lineEnd := st.offset))
    else if !st.seen then Err(InvalidData)
    else Ok(st.(section := InOther))
  }

  function StepInterface(pton: Pton, st: Scan, key: string, value: string): Result<Scan> {
    if SpanEqual(key, "DNS") then
      if ListOk(pton, Items(value)) then Ok(st.(dns := Extended(st.dns, pton, value))) else Err(InvalidData)
    else
      var name := QuickName(key);
      if name.None? then Ok(st)
      else if |st.quick| + |QuickLine(name.value, value)| > MAX_CONFIG_SIZE then Err(TooLarge)
      else Ok(st.(quick := st.quick + QuickLine(name.value, value)))
  }

  function StepDirective(pton: Pton, st: Scan, line: string): Result<Scan> {
    var equals := Find(line, '=');
    if equals.None? || st.section == NoSection then Err(InvalidData)
    else
      var key, value := Trim(line[..equals.value]), Trim(line[equals.value + 1..]);
      if !TokenIsSafe(key) then Err(InvalidData)
      else if IsUnsafeDirective(key) then Err(UnsafeDirective)
      else if st.section == InInterface then StepInterface(pton, st, key, value)
      else Ok(st)
  }

  /** One line, already stripped; `length` is how long it was. */
  function StepBody(pton: Pton, st: Scan, body: string, length: nat): Result<Scan> {
    var next := st.(offset := st.offset + length);
    if HasControl(body) then Err(InvalidData)
    else
      var line := Trim(body);
      if line == [] then Ok(next)
      else if line[0] == '[' then StepSection(next, line)
      else StepDirective(pton, next, line)
  }

  function StepLine(pton: Pton, st: Scan, physical: string): Result<Scan> {
    StepBody(pton, st, Stripped(physical), |physical|)
  }

  function ScanLines(pton: Pton, st: Scan, lines: seq<string>): Result<Scan>
    decreases |lines|
  {
    if lines == [] then Ok(st)
    else
      var next := StepLine(pton, st, lines[0]);
      if next.Err? then next else ScanLines(pton, next.value, lines[1..])
  }

  predicate HasNul(data: string) {
    Find(data, '\0').Some?
  }

  function CheckedEnd(st: Scan): Result<Scan> {
    if !st.seen then Err(MissingStructure)
    else if st.dns.domains != [] && st.dns.servers == [] then Err(InvalidData)
    else Ok(st)
  }

  function ScanConfig(pton: Pton, data: string): Result<Scan> {
    if |data| > MAX_CONFIG_SIZE then Err(TooLarge)
    else if data == [] || HasNul(data) then Err(InvalidData)
    else
      var end := ScanLines(pton, START, Lines(data));
      if end.Err? then end else CheckedEnd(end.value)
  }

  datatype Envelope = Envelope(quick: string, dns: DnsConfig, lineEnd: nat)

  function ParseEnvelope(pton: Pton, data: string): Result<Envelope> {
    var scan := ScanConfig(pton, data);
    if scan.Err? then Err(scan.error)
    else
      match MeasureOf(scan.value.dns)
      case MeasureOk(_) => Ok(Envelope(scan.value.quick, scan.value.dns, scan.value.lineEnd))
      case MeasureTooLarge => Err(TooLarge)
      case MeasureInvalid => Err(InvalidData)
  }

  // ------------------------------------------------------------------------
  // The snapshot
  // ------------------------------------------------------------------------

  /** A newline is needed where the interface line had none. */
  function Separator(protocol: string, lineEnd: nat): string
    requires lineEnd <= |protocol|
  {
    if lineEnd > 0 && protocol[lineEnd - 1] != '\n' then "\n" else ""
  }

  /** `text` inserted just after the interface line, on a line of its own. */
  function Spliced(protocol: string, lineEnd: nat, text: string): string
    requires lineEnd <= |protocol|
  {
    protocol[..lineEnd] + Separator(protocol, lineEnd) + text + protocol[lineEnd..]
  }

  function SnapshotAt(protocol: string, lineEnd: nat, quick: string, reserve: nat): Result<string>
    requires lineEnd <= |protocol|
  {
    var snapshot := if quick == [] then protocol else Spliced(protocol, lineEnd, quick);
    if reserve + |snapshot| > MAX_CONFIG_SIZE then Err(TooLarge) else Ok(snapshot)
  }

  function SnapshotOf(pton: Pton, protocol: string, envelope: Envelope, reserve: nat): Result<string> {
    var scan := ScanConfig(pton, protocol);
    if scan.Err? then Err(scan.error)
    else if scan.value.quick != [] || scan.value.dns != EMPTY_DNS then Err(InvalidData)
    else
      ScanStays(pton, protocol);
      SnapshotAt(protocol, scan.value.lineEnd, envelope.quick, reserve)
  }

  // ------------------------------------------------------------------------
  // What scanning does to its state
  // ------------------------------------------------------------------------

  function TotalLength(lines: seq<string>): nat {
    if lines == [] then 0 else |lines[0]| + TotalLength(lines[1..])
  }

  lemma StepAdvances(pton: Pton, st: Scan, physical: string)
    requires StepLine(pton, st, physical).Ok?
    ensures var next := StepLine(pton, st, physical).value;
            && next.offset == st.offset + |physical|
            && (st.seen ==> next.seen && next.lineEnd == st.lineEnd)
            && (!st.seen && next.seen ==>
                  next.lineEnd == next.offset && next.section == InInterface && next.quick == st.quick
                  && next.dns == st.dns)
            && (!next.seen ==>
                  next.quick == st.quick && next.dns == st.dns && next.section == st.section
                  && next.lineEnd == st.lineEnd)
            && st.quick <= next.quick
    requires !st.seen ==> st.section == NoSection
  {
    hide ListOk, Items, Extended, SpanEqual, TokenIsSafe, HasControl, Trim, Find;
  }

  lemma {:induction false} ScanAdvances(pton: Pton, st: Scan, lines: seq<string>)
    requires ScanLines(pton, st, lines).Ok? && (!st.seen ==> st.section == NoSection)
    ensures var end := ScanLines(pton, st, lines).value;
            && end.offset == st.offset + TotalLength(lines)
            && (st.seen ==> end.seen && end.lineEnd == st.lineEnd)
            && st.quick <= end.quick
            && (!st.seen && end.seen ==> st.offset <= end.lineEnd <= end.offset)
    decreases |lines|
  {
    hide StepLine;
    if lines != [] {
      StepAdvances(pton, st, lines[0]);
      ScanAdvances(pton, StepLine(pton, st, lines[0]).value, lines[1..]);
    }
  }

  lemma {:induction false} LinesLength(data: string)
    ensures TotalLength(Lines(data)) == |data|
    decreases |data|
  {
    if data != [] {
      var newline := Find(data, '\n');
      if newline.Some? {
        LinesLength(data[newline.value + 1..]);
      }
    }
  }

  lemma ScanStays(pton: Pton, data: string)
    requires ScanConfig(pton, data).Ok?
    ensures ScanConfig(pton, data).value.lineEnd <= |data|
  {
    ScanAdvances(pton, START, Lines(data));
    LinesLength(data);
  }

  lemma {:induction false} ScanConcat(pton: Pton, st: Scan, a: seq<string>, b: seq<string>)
    ensures var first := ScanLines(pton, st, a);
            ScanLines(pton, st, a + b) == if first.Ok? then ScanLines(pton, first.value, b) else first
    decreases |a|
  {
    hide StepLine;
    if a == [] {
      assert a + b == b;
    } else {
      assert (a + b)[1..] == a[1..] + b;
      var next := StepLine(pton, st, a[0]);
      if next.Ok? {
        ScanConcat(pton, next.value, a[1..], b);
      }
    }
  }

  ghost predicate SplitsAt(data: string, k: nat)
    requires k <= |Lines(data)|
  {
    var e := TotalLength(Lines(data)[..k]);
    && e <= |data| && Lines(data[..e]) == Lines(data)[..k] && Lines(data[e..]) == Lines(data)[k..]
    && (e == 0 || e == |data| || EndsLine(data[..e]))
  }

  lemma TotalCons(line: string, lines: seq<string>)
    ensures TotalLength([line] + lines) == |line| + TotalLength(lines)
  {
    assert ([line] + lines)[1..] == lines;
  }

  lemma SplitAfterLine(head: string, rest: string, k: nat)
    requires EndsLine(head) && Lines(head) == [head] && k <= |Lines(rest)| && SplitsAt(rest, k)
    ensures Lines(head + rest) == [head] + Lines(rest) && SplitsAt(head + rest, k + 1)
  {
    hide Lines, TotalLength;
    var data, others := head + rest, Lines(rest);
    LinesConcat(head, rest);
    var e := TotalLength(others[..k]);
    assert Lines(data)[..k + 1] == [head] + others[..k];
    TotalCons(head, others[..k]);
    assert data[..|head| + e] == head + rest[..e];
    LinesConcat(head, rest[..e]);
    assert data[|head| + e..] == rest[e..];
    assert Lines(data)[k + 1..] == others[k..];
  }

  lemma NoLines(data: string)
    ensures Lines(data[..0]) == Lines(data)[..0] && Lines(data[0..]) == Lines(data)[0..]
    ensures TotalLength(Lines(data)[..0]) == 0
  {
    assert data[0..] == data && Lines(data)[..0] == [];
  }

  lemma LastLine(data: string)
    requires data != [] && Find(data, '\n').None?
    ensures Lines(data) == [data] && TotalLength(Lines(data)[..1]) == |data|
    ensures Lines(data[..|data|]) == Lines(data)[..1] && Lines(data[|data|..]) == Lines(data)[1..]
  {
    assert [data][..1] == [data] && [data][1..] == [];
    assert TotalLength([data]) == |data| + TotalLength([data][1..]);
    assert data[..|data|] == data && data[|data|..] == [];
  }

  lemma FirstLine(data: string)
    requires Find(data, '\n').Some?
    ensures var n := Find(data, '\n').value + 1;
            EndsLine(data[..n]) && Lines(data[..n]) == [data[..n]] && Lines(data) == [data[..n]] + Lines(data[n..])
  {
    FindFirst(data, '\n');
    OneLine(data[..Find(data, '\n').value + 1]);
  }

  /** The first `k` lines are a prefix of the text, and the others what follows. */
  lemma {:induction false} LinesSplit(data: string, k: nat)
    requires k <= |Lines(data)|
    ensures SplitsAt(data, k)
    decreases |data|
  {
    if k == 0 {
      NoLines(data);
    } else if Find(data, '\n').None? {
      LastLine(data);
    } else {
      hide Lines, SplitsAt, EndsLine;
      FirstLine(data);
      var n := Find(data, '\n').value + 1;
      LinesSplit(data[n..], k - 1);
      SplitAfterLine(data[..n], data[n..], k - 1);
      assert data == data[..n] + data[n..];
    }
  }

  /** What the scanner sees of a line. */
  function LineBody(physical: string): string {
    Trim(Stripped(physical))
  }

  predicate OpensInterface(physical: string) {
    var line := LineBody(physical);
    |line| >= 2 && line[0] == '[' && line[|line| - 1] == ']' && SpanEqual(line[1..|line| - 1], "Interface")
  }

  lemma OpenerOpens(pton: Pton, st: Scan, physical: string)
    requires StepLine(pton, st, physical).Ok? && (!st.seen ==> st.section == NoSection)
    ensures OpensInterface(physical) <==> !st.seen && StepLine(pton, st, physical).value.seen
  {
    hide ListOk, Items, Extended, SpanEqual, TokenIsSafe, HasControl, Trim, Find, Stripped, QuickName,
         IsUnsafeDirective;
  }

  /** A scanner in the interface section, or past it, meets no other one. */
  lemma {:induction false} NoOtherOpener(pton: Pton, st: Scan, lines: seq<string>, j: nat)
    requires ScanLines(pton, st, lines).Ok? && st.seen && j < |lines|
    ensures !OpensInterface(lines[j])
    decreases |lines|
  {
    hide StepLine, OpensInterface;
    StepAdvances(pton, st, lines[0]);
    if j == 0 {
      OpenerOpens(pton, st, lines[0]);
    } else {
      NoOtherOpener(pton, StepLine(pton, st, lines[0]).value, lines[1..], j - 1);
    }
  }

  /** Exactly one line of a scanned configuration opens the interface section. */
  lemma {:induction false} OneInterfaceLine(pton: Pton, st: Scan, lines: seq<string>) returns (k: nat)
    requires ScanLines(pton, st, lines).Ok? && !st.seen && st.section == NoSection
    requires ScanLines(pton, st, lines).value.seen
    ensures k < |lines| && forall j | 0 <= j < |lines| :: OpensInterface(lines[j]) <==> j == k
    decreases |lines|
  {
    hide StepLine, OpensInterface;
    var next := StepLine(pton, st, lines[0]).value;
    StepAdvances(pton, st, lines[0]);
    OpenerOpens(pton, st, lines[0]);
    if next.seen {
      k := 0;
      forall j | 1 <= j < |lines| ensures !OpensInterface(lines[j]) {
        NoOtherOpener(pton, next, lines[1..], j - 1);
      }
    } else {
      var later := OneInterfaceLine(pton, next, lines[1..]);
      k := later + 1;
      assert forall j | 1 <= j < |lines| :: lines[j] == lines[1..][j - 1];
    }
  }

  /** The line that opens the interface section: the state just after it, which
      nothing later moves. */
  lemma {:induction false} InterfaceSplit(pton: Pton, st: Scan, lines: seq<string>) returns (k: nat)
    requires ScanLines(pton, st, lines).Ok? && !st.seen && st.section == NoSection
    requires ScanLines(pton, st, lines).value.seen
    ensures 0 < k <= |lines|
    ensures ScanLines(pton, st, lines[..k - 1]).Ok? && ScanLines(pton, st, lines[..k]).Ok?
    ensures var before := ScanLines(pton, st, lines[..k - 1]).value; !before.seen && before.section == NoSection
    ensures var mid := ScanLines(pton, st, lines[..k]).value;
            && mid.seen && mid.section == InInterface && mid.quick == st.quick && mid.dns == st.dns
            && mid.lineEnd == mid.offset == ScanLines(pton, st, lines).value.lineEnd
    decreases |lines|
  {
    hide StepLine;
    var next := StepLine(pton, st, lines[0]).value;
    StepAdvances(pton, st, lines[0]);
    ScanAdvances(pton, next, lines[1..]);
    if next.seen {
      k := 1;
      assert lines[..1] == [lines[0]];
    } else {
      var j := InterfaceSplit(pton, next, lines[1..]);
      k := j + 1;
      assert lines[..k][1..] == lines[1..][..j] && lines[..k - 1][1..] == lines[1..][..j - 1];
    }
  }

  function Moved(st: Scan, quick: string, lineEnd: nat, offset: nat): Scan {
    st.(quick := quick, lineEnd := lineEnd, offset := offset)
  }

  lemma QuickLineLengthens(quick: string, name: string, value: string)
    ensures quick + QuickLine(name, value) != quick
  {
    assert |quick + QuickLine(name, value)| > |quick|;
  }

  lemma InterfaceFrame(pton: Pton, st: Scan, key: string, value: string, quick: string, lineEnd: nat, offset: nat)
    requires StepInterface(pton, st, key, value).Ok? && StepInterface(pton, st, key, value).value.quick == st.quick
    ensures StepInterface(pton, Moved(st, quick, lineEnd, offset), key, value)
            == Ok(Moved(StepInterface(pton, st, key, value).value, quick, lineEnd, offset))
  {
    hide ListOk, Items, Extended, SpanEqual, QuickName;
    if !SpanEqual(key, "DNS") && QuickName(key).Some? {
      QuickLineLengthens(st.quick, QuickName(key).value, value);
    }
  }

  lemma DirectiveFrame(pton: Pton, st: Scan, line: string, quick: string, lineEnd: nat, offset: nat)
    requires StepDirective(pton, st, line).Ok? && StepDirective(pton, st, line).value.quick == st.quick
    ensures StepDirective(pton, Moved(st, quick, lineEnd, offset), line)
            == Ok(Moved(StepDirective(pton, st, line).value, quick, lineEnd, offset))
  {
    hide StepInterface, TokenIsSafe, Trim, Find, IsUnsafeDirective;
    if st.section == InInterface {
      var n := Find(line, '=').value;
      InterfaceFrame(pton, st, Trim(line[..n]), Trim(line[n + 1..]), quick, lineEnd, offset);
    }
  }

  /** A line that adds no quick directive does not care which ones are there. */
  lemma StepFrame(pton: Pton, st: Scan, physical: string, quick: string, lineEnd: nat, offset: nat)
    requires StepLine(pton, st, physical).Ok? && st.seen && StepLine(pton, st, physical).value.quick == st.quick
    ensures StepLine(pton, Moved(st, quick, lineEnd, offset), physical)
            == Ok(Moved(StepLine(pton, st, physical).value, quick, lineEnd, offset + |physical|))
  {
    hide StepDirective, SpanEqual, TokenIsSafe, HasControl, Trim, Stripped;
    var line := LineBody(physical);
    if line != [] && line[0] != '[' {
      var next := st.(offset := st.offset + |physical|);
      DirectiveFrame(pton, next, line, quick, lineEnd, offset + |physical|);
    }
  }

  lemma {:induction false} ScanFrame(pton: Pton, st: Scan, lines: seq<string>, quick: string, lineEnd: nat, offset: nat)
    requires ScanLines(pton, st, lines).Ok? && st.seen && ScanLines(pton, st, lines).value.quick == st.quick
    ensures ScanLines(pton, Moved(st, quick, lineEnd, offset), lines)
            == Ok(Moved(ScanLines(pton, st, lines).value, quick, lineEnd, offset + TotalLength(lines)))
    decreases |lines|
  {
    hide StepLine;
    if lines != [] {
      var next := StepLine(pton, st, lines[0]).value;
      StepAdvances(pton, st, lines[0]);
      ScanAdvances(pton, next, lines[1..]);
      StepFrame(pton, st, lines[0], quick, lineEnd, offset);
      ScanFrame(pton, next, lines[1..], quick, lineEnd, offset + |lines[0]|);
    }
  }

  // ------------------------------------------------------------------------
  // Quick directives, rendered and read again
  // ------------------------------------------------------------------------

  predicate IsQuickName(name: string) {
    name == "Address" || name == "MTU" || name == "Table" || name == "SaveConfig"
  }

  predicate IsClean(s: string) {
    forall i | 0 <= i < |s| :: !IsControl(s[i]) && s[i] != '#'
  }

  predicate ValueOk(value: string) {
    Trim(value) == value && IsClean(value)
  }

  ghost predicate IsQuickLine(line: string) {
    exists name, value :: IsQuickName(name) && ValueOk(value) && line == QuickLine(name, value)
  }

  ghost predicate IsQuickText(quick: string) {
    (quick == [] || EndsLine(quick)) && forall i | 0 <= i < |Lines(quick)| :: IsQuickLine(Lines(quick)[i])
  }

  predicate IsPlainName(name: string) {
    name != [] && forall i | 0 <= i < |name| :: IsAlnum(name[i])
  }

  lemma QuickNameChars(name: string)
    requires IsQuickName(name)
    ensures IsPlainName(name)
  {
  }

  lemma PlainNameIsSafe(name: string)
    requires IsPlainName(name)
    ensures TokenIsSafe(name)
  {
  }

  lemma QuickNameKnown(name: string)
    requires IsQuickName(name)
    ensures !IsUnsafeDirective(name) && !SpanEqual(name, "DNS") && QuickName(name) == Some(name)
  {
    assert SpanEqual(name, name);
    assert name[0] != 'P' && name[0] != 'D' && Lower(name[0]) != 'p' && Lower(name[0]) != 'd';
  }

  lemma SolidLeft(s: string)
    requires s == [] || !IsSpace(s[0])
    ensures TrimLeft(s) == s
  {
  }

  lemma SolidRight(s: string)
    requires s == [] || !IsSpace(s[|s| - 1])
    ensures TrimRight(s) == s
  {
  }

  lemma TrimIsSolid(s: string)
    ensures var t := Trim(s); t == [] || (!IsSpace(t[0]) && !IsSpace(t[|t| - 1]))
    ensures Trim(Trim(s)) == Trim(s)
  {
    var left := TrimLeft(s);
    var t := TrimRight(left);
    TrimLeftShape(s);
    TrimRightShape(left);
    if t != [] {
      assert t[0] == left[0];
    }
    SolidLeft(t);
    SolidRight(t);
  }

  lemma SolidEnds(value: string)
    requires Trim(value) == value
    ensures value == [] || (!IsSpace(value[0]) && !IsSpace(value[|value| - 1]))
  {
    TrimIsSolid(value);
  }

  /** A quick line without its newline, and as the scanner trims it. */
  function QuickBody(name: string, value: string): string {
    name + " = " + value
  }

  function QuickTrimmed(name: string, value: string): string {
    if value == [] then name + " =" else QuickBody(name, value)
  }

  lemma QuickLineStripped(name: string, value: string)
    requires IsPlainName(name) && ValueOk(value)
    ensures Stripped(QuickLine(name, value)) == QuickBody(name, value) && !HasControl(QuickBody(name, value))
  {
    hide Trim;
    var line, body := QuickLine(name, value), QuickBody(name, value);
    assert line[..|line| - 1] == body;
    forall i | 0 <= i < |body| ensures body[i] != '#' && !IsControl(body[i]) {
      if i >= |name| + 3 {
        assert body[i] == value[i - |name| - 3];
      }
    }
    NotFound(body, '#');
  }

  lemma OneSpaceRight(s: string)
    requires s == [] || !IsSpace(s[|s| - 1])
    ensures TrimRight(s + " ") == s
  {
    assert (s + " ")[..|s|] == s;
    SolidRight(s);
  }

  lemma OneSpaceLeft(s: string)
    requires s == [] || !IsSpace(s[0])
    ensures TrimLeft(" " + s) == s
  {
    assert (" " + s)[1..] == s;
    SolidLeft(s);
  }

  lemma QuickBodyTrims(name: string, value: string)
    requires IsPlainName(name) && ValueOk(value)
    ensures Trim(QuickBody(name, value)) == QuickTrimmed(name, value) && QuickTrimmed(name, value)[0] == name[0]
  {
    hide TrimLeft, TrimRight;
    SolidEnds(value);
    var body := QuickBody(name, value);
    assert body[0] == name[0];
    SolidLeft(body);
    if value == [] {
      assert body == (name + " =") + " ";
      OneSpaceRight(name + " =");
    } else {
      assert body[|body| - 1] == value[|value| - 1];
      SolidRight(body);
    }
  }

  lemma QuickParts(name: string, value: string)
    requires IsPlainName(name) && ValueOk(value)
    ensures var line := QuickTrimmed(name, value);
            && Find(line, '=') == Some(|name| + 1)
            && Trim(line[..|name| + 1]) == name && Trim(line[|name| + 2..]) == value
  {
    hide Find, TrimLeft, TrimRight;
    SolidEnds(value);
    var line := QuickTrimmed(name, value);
    assert forall i | 0 <= i < |name| :: line[i] == name[i];
    FoundAt(line, '=', |name| + 1);
    var key := line[..|name| + 1];
    assert key == name + " ";
    SolidLeft(key);
    OneSpaceRight(name);
    var rest := line[|name| + 2..];
    if value != [] {
      assert rest == " " + value;
      OneSpaceLeft(value);
      SolidRight(value);
    } else {
      assert rest == [];
      SolidLeft(rest);
      SolidRight(rest);
    }
  }

  /** The scanner reads a line it rendered as exactly that directive. */
  lemma QuickLineReadsBack(pton: Pton, st: Scan, name: string, value: string)
    requires IsQuickName(name) && ValueOk(value) && st.section == InInterface
    requires |st.quick| + |QuickLine(name, value)| <= MAX_CONFIG_SIZE
    ensures var line := QuickLine(name, value);
            StepLine(pton, st, line) == Ok(st.(quick := st.quick + line, offset := st.offset + |line|))
  {
    hide IsQuickName, Find, Trim, HasControl, TokenIsSafe, IsUnsafeDirective, SpanEqual, QuickName, Stripped, ListOk,
         Items, Extended, QuickBody;
    QuickNameChars(name);
    PlainNameIsSafe(name);
    QuickNameKnown(name);
    QuickLineStripped(name, value);
    QuickBodyTrims(name, value);
    QuickParts(name, value);
  }

  lemma {:induction false} QuickLinesReadBack(pton: Pton, st: Scan, lines: seq<string>)
    requires st.section == InInterface && forall i | 0 <= i < |lines| :: IsQuickLine(lines[i])
    requires |st.quick| + TotalLength(lines) <= MAX_CONFIG_SIZE
    ensures ScanLines(pton, st, lines)
              == Ok(st.(quick := st.quick + Joined(lines), offset := st.offset + TotalLength(lines)))
    decreases |lines|
  {
    hide StepLine, QuickLine, ValueOk, IsQuickName;
    if lines == [] {
      assert st.quick + [] == st.quick;
    } else {
      var name, value :| IsQuickName(name) && ValueOk(value) && lines[0] == QuickLine(name, value);
      QuickLineReadsBack(pton, st, name, value);
      var next := st.(quick := st.quick + lines[0], offset := st.offset + |lines[0]|);
      QuickLinesReadBack(pton, next, lines[1..]);
      ConcatAssociates(st.quick, lines[0], Joined(lines[1..]));
    }
  }

  lemma StrippedIsClean(physical: string)
    requires !HasControl(Stripped(physical))
    ensures IsClean(Stripped(physical))
  {
    var body := if EndsLine(physical) then physical[..|physical| - 1] else physical;
    FindFirst(body, '#');
  }

  lemma TrimIsClean(s: string)
    requires IsClean(s)
    ensures IsClean(Trim(s))
  {
    TrimLeftShape(s);
    TrimRightShape(TrimLeft(s));
    var left := TrimLeft(s);
    assert IsClean(left) by {
      assert forall i | 0 <= i < |left| :: left[i] == s[|s| - |left| + i];
    }
    assert forall i | 0 <= i < |Trim(s)| :: Trim(s)[i] == left[i];
  }

  lemma QuickNameIsQuick(key: string)
    requires QuickName(key).Some?
    ensures IsQuickName(QuickName(key).value)
  {
  }

  lemma QuickLineIsOne(name: string, value: string)
    requires IsPlainName(name) && ValueOk(value)
    ensures EndsLine(QuickLine(name, value)) && Lines(QuickLine(name, value)) == [QuickLine(name, value)]
  {
    hide Trim, Lines;
    var line := QuickLine(name, value);
    forall i | 0 <= i < |line| - 1 ensures line[i] != '\n' {
      if i >= |name| + 3 {
        assert line[i] == value[i - |name| - 3];
      }
    }
    OneLine(line);
  }

  lemma QuickTextGrows(quick: string, name: string, value: string)
    requires IsQuickText(quick) && IsQuickName(name) && ValueOk(value)
    ensures IsQuickText(quick + QuickLine(name, value))
  {
    hide IsQuickName, ValueOk, Lines, QuickLine;
    QuickNameChars(name);
    QuickLineIsOne(name, value);
    LinesConcat(quick, QuickLine(name, value));
    assert IsQuickLine(QuickLine(name, value));
  }

  lemma StepKeepsQuickText(pton: Pton, st: Scan, physical: string)
    requires StepLine(pton, st, physical).Ok? && IsQuickText(st.quick)
    ensures IsQuickText(StepLine(pton, st, physical).value.quick)
  {
    hide ListOk, Items, Extended, SpanEqual, TokenIsSafe, HasControl, Trim, Find, QuickName, IsUnsafeDirective,
         IsQuickText, QuickLine, IsClean, Stripped, IsQuickName;
    var line := Trim(Stripped(physical));
    var equals := Find(line, '=');
    if line != [] && line[0] != '[' {
      var key, rest := Trim(line[..equals.value]), line[equals.value + 1..];
      StrippedIsClean(physical);
      TrimIsClean(Stripped(physical));
      TailIsClean(line, equals.value + 1);
      TrimIsClean(rest);
      TrimIsSolid(rest);
      if QuickName(key).Some? {
        QuickNameIsQuick(key);
        QuickTextGrows(st.quick, QuickName(key).value, Trim(rest));
      }
    }
  }

  lemma TailIsClean(s: string, i: nat)
    requires IsClean(s) && i <= |s|
    ensures IsClean(s[i..])
  {
  }

  lemma {:induction false} ScanKeepsQuickText(pton: Pton, st: Scan, lines: seq<string>)
    requires ScanLines(pton, st, lines).Ok? && IsQuickText(st.quick)
    ensures IsQuickText(ScanLines(pton, st, lines).value.quick)
    decreases |lines|
  {
    hide StepLine, IsQuickText;
    if lines != [] {
      StepKeepsQuickText(pton, st, lines[0]);
      ScanKeepsQuickText(pton, StepLine(pton, st, lines[0]).value, lines[1..]);
    }
  }

  lemma StepBudget(pton: Pton, st: Scan, physical: string)
    requires StepLine(pton, st, physical).Ok? && |st.quick| <= MAX_CONFIG_SIZE
    ensures |StepLine(pton, st, physical).value.quick| <= MAX_CONFIG_SIZE
  {
    hide ListOk, Items, Extended, SpanEqual, TokenIsSafe, HasControl, Trim, Find, QuickName, IsUnsafeDirective;
  }

  /** Quick directives are counted as they are collected. */
  lemma {:induction false} ScanBudget(pton: Pton, st: Scan, lines: seq<string>)
    requires ScanLines(pton, st, lines).Ok? && |st.quick| <= MAX_CONFIG_SIZE
    ensures |ScanLines(pton, st, lines).value.quick| <= MAX_CONFIG_SIZE
    decreases |lines|
  {
    hide StepLine;
    if lines != [] {
      StepBudget(pton, st, lines[0]);
      ScanBudget(pton, StepLine(pton, st, lines[0]).value, lines[1..]);
    }
  }

  /** What an accepted configuration leaves for awg-quick. */
  lemma EnvelopeQuick(pton: Pton, data: string)
    requires ScanConfig(pton, data).Ok?
    ensures IsQuickText(ScanConfig(pton, data).value.quick) && |ScanConfig(pton, data).value.quick| <= MAX_CONFIG_SIZE
  {
    hide StepLine;
    assert IsQuickText([]);
    ScanKeepsQuickText(pton, START, Lines(data));
    ScanBudget(pton, START, Lines(data));
  }

  // ------------------------------------------------------------------------
  // Command hooks
  // ------------------------------------------------------------------------

  /** A directive whose key is a command hook. */
  predicate IsHook(physical: string) {
    var line := LineBody(physical);
    Find(line, '=').Some? && IsUnsafeDirective(Trim(line[..Find(line, '=').value]))
  }

  lemma HookKeyIsSafe(key: string)
    requires IsUnsafeDirective(key)
    ensures TokenIsSafe(key)
  {
    forall i | 0 <= i < |key|
      ensures !IsSpace(key[i]) && key[i] != '[' && key[i] != ']' && key[i] != '=' && key[i] != '#'
    {
      assert 'a' <= Lower(key[i]) <= 'z';
    }
  }

  /** A line whose trimmed key is a hook does not begin like a section. */
  lemma HookIsNoSection(line: string, n: nat)
    requires n < |line| && IsUnsafeDirective(Trim(line[..n])) && (line == [] || !IsSpace(line[0]))
    ensures line[0] != '['
  {
    var key := line[..n];
    HookKeyIsSafe(Trim(key));
    if n > 0 {
      SolidLeft(key);
      TrimRightShape(key);
      assert Trim(key) == TrimRight(key) <= key;
      assert Trim(key)[0] == key[0];
    }
  }

  /** Each of the four hooks stops the scanner, in any spelling, with any value and
      in any section. */
  lemma HookStops(pton: Pton, st: Scan, physical: string)
    requires IsHook(physical)
    ensures StepLine(pton, st, physical)
         == Err(if HasControl(Stripped(physical)) || st.section == NoSection then InvalidData else UnsafeDirective)
  {
    hide Find, Trim, HasControl, TokenIsSafe, Stripped, ListOk, Items, Extended, IsUnsafeDirective;
    var line := LineBody(physical);
    var n := Find(line, '=').value;
    TrimIsSolid(Stripped(physical));
    HookIsNoSection(line, n);
    HookKeyIsSafe(Trim(line[..n]));
  }

  lemma {:induction false} ScannedLineIsNoHook(pton: Pton, st: Scan, lines: seq<string>, j: nat)
    requires ScanLines(pton, st, lines).Ok? && j < |lines|
    ensures !IsHook(lines[j])
    decreases |lines|
  {
    hide StepLine, IsHook;
    if j > 0 {
      ScannedLineIsNoHook(pton, StepLine(pton, st, lines[0]).value, lines[1..], j - 1);
    } else if IsHook(lines[0]) {
      HookStops(pton, st, lines[0]);
    }
  }

  /** No accepted configuration has a command hook anywhere. */
  lemma AcceptedHasNoHook(pton: Pton, data: string)
    requires ParseEnvelope(pton, data).Ok?
    ensures forall j | 0 <= j < |Lines(data)| :: !IsHook(Lines(data)[j])
  {
    hide IsHook, StepLine, Lines, HasNul;
    forall j | 0 <= j < |Lines(data)| ensures !IsHook(Lines(data)[j]) {
      ScannedLineIsNoHook(pton, START, Lines(data), j);
    }
  }

  // ------------------------------------------------------------------------
  // The splice
  // ------------------------------------------------------------------------

  lemma UnterminatedLine(line: string)
    requires Lines(line) == [line] && !EndsLine(line)
    ensures Lines(line + "\n") == [line + "\n"] && Stripped(line + "\n") == Stripped(line)
  {
    FindFirst(line, '\n');
    assert Find(line, '\n').None?;
    OneLine(line + "\n");
    assert (line + "\n")[..|line|] == line;
  }

  /** A newline at the end of the interface line changes nothing but the offsets. */
  lemma TerminatedInterface(pton: Pton, before: Scan, last: string)
    requires Lines(last) == [last] && !EndsLine(last) && !before.seen
    requires StepLine(pton, before, last).Ok? && StepLine(pton, before, last).value.seen
    ensures var mid := StepLine(pton, before, last).value;
            StepLine(pton, before, last + "\n") == Ok(Moved(mid, mid.quick, mid.lineEnd + 1, mid.offset + 1))
  {
    hide Lines, Stripped, ListOk, Items, Extended, SpanEqual, TokenIsSafe, HasControl, Trim, Find, QuickName,
         IsUnsafeDirective;
    UnterminatedLine(last);
  }

  lemma LastOf(lines: seq<string>, k: nat)
    requires 0 < k <= |lines|
    ensures lines[..k] == lines[..k - 1] + [lines[k - 1]]
  {
  }

  lemma UnterminatedPrefix(protocol: string, k: nat)
    requires 0 < k == |Lines(protocol)| && !EndsLine(protocol)
    ensures var last := Lines(protocol)[k - 1];
            !EndsLine(last) && Lines(last) == [last]
            && Lines(protocol + "\n") == Lines(protocol)[..k - 1] + [last + "\n"]
  {
    hide Lines, TotalLength, Stripped;
    LinesSplit(protocol, k - 1);
    var e := TotalLength(Lines(protocol)[..k - 1]);
    var rest := protocol[e..];
    assert Lines(rest) == [Lines(protocol)[k - 1]];
    LinesJoin(rest);
    assert Joined(Lines(rest)) == Lines(rest)[0] + [] by {
      assert Joined(Lines(rest)[1..]) == [];
    }
    assert rest == Lines(protocol)[k - 1];
    assert !EndsLine(rest) by {
      if rest != [] {
        assert rest[|rest| - 1] == protocol[|protocol| - 1];
      }
    }
    UnterminatedLine(rest);
    NoEmptyLine(rest);
    assert protocol + "\n" == protocol[..e] + (rest + "\n");
    LinesConcat(protocol[..e], rest + "\n");
  }

  lemma NoEmptyLine(data: string)
    requires Lines(data) != []
    ensures data != []
  {
  }

  lemma ScanSnoc(pton: Pton, st: Scan, lines: seq<string>, last: string)
    ensures var before := ScanLines(pton, st, lines);
            ScanLines(pton, st, lines + [last]) == if before.Ok? then StepLine(pton, before.value, last) else before
  {
    hide StepLine;
    ScanConcat(pton, st, lines, [last]);
    assert [last][1..] == [];
  }

  /** Up to the end of its interface line, made a line of its own, a configuration
      scans as it did. */
  lemma OpenedPrefix(pton: Pton, protocol: string, k: nat)
    requires 0 < k <= |Lines(protocol)|
    requires ScanLines(pton, START, Lines(protocol)[..k - 1]).Ok? && ScanLines(pton, START, Lines(protocol)[..k]).Ok?
    requires !ScanLines(pton, START, Lines(protocol)[..k - 1]).value.seen
    requires ScanLines(pton, START, Lines(protocol)[..k]).value.seen
    requires SplitsAt(protocol, k)
    requires ScanLines(pton, START, Lines(protocol)[..k]).value.lineEnd == TotalLength(Lines(protocol)[..k])
    ensures var mid := ScanLines(pton, START, Lines(protocol)[..k]).value;
            var sep := Separator(protocol, mid.lineEnd);
            && EndsLine(protocol[..mid.lineEnd] + sep)
            && ScanLines(pton, START, Lines(protocol[..mid.lineEnd] + sep))
               == Ok(Moved(mid, mid.quick, mid.lineEnd + |sep|, mid.offset + |sep|))
  {
    hide StepLine, Lines, TotalLength;
    var lines := Lines(protocol);
    var before, mid := ScanLines(pton, START, lines[..k - 1]).value, ScanLines(pton, START, lines[..k]).value;
    var e := mid.lineEnd;
    if EndsLine(protocol[..e]) {
      assert protocol[..e] + [] == protocol[..e];
    } else {
      PrefixNotEmpty(protocol, k);
      assert protocol[..e] == protocol;
      assert lines[..k] == lines;
      UnterminatedPrefix(protocol, k);
      LastOf(lines, k);
      ScanSnoc(pton, START, lines[..k - 1], lines[k - 1]);
      ScanSnoc(pton, START, lines[..k - 1], lines[k - 1] + "\n");
      TerminatedInterface(pton, before, lines[k - 1]);
    }
  }

  lemma PrefixNotEmpty(protocol: string, k: nat)
    requires 0 < k <= |Lines(protocol)| && SplitsAt(protocol, k)
    ensures TotalLength(Lines(protocol)[..k]) > 0
    ensures TotalLength(Lines(protocol)[..k]) == |protocol| ==> k == |Lines(protocol)|
  {
    var e := TotalLength(Lines(protocol)[..k]);
    NoEmptyLine(protocol[..e]);
    if e == |protocol| {
      assert protocol[e..] == [];
    }
  }

  /** Text of whole lines spliced in after the interface line: the scan reaches the
      open interface section, goes through the text, and goes on as before. */
  lemma SplicedScan(pton: Pton, protocol: string, text: string) returns (mid: Scan)
    requires ScanLines(pton, START, Lines(protocol)).Ok? && ScanLines(pton, START, Lines(protocol)).value.seen
    requires ScanLines(pton, START, Lines(protocol)).value.lineEnd <= |protocol| && EndsLine(text)
    ensures var end := ScanLines(pton, START, Lines(protocol)).value;
            var e := end.lineEnd;
            var through := ScanLines(pton, mid, Lines(text));
            && mid == Scan(InInterface, true, [], EMPTY_DNS, e + |Separator(protocol, e)|, e + |Separator(protocol, e)|)
            && ScanLines(pton, START, Lines(Spliced(protocol, e, text)))
               == (if through.Ok? then ScanLines(pton, through.value, Lines(protocol[e..])) else through)
            && ScanLines(pton, Moved(mid, [], e, e), Lines(protocol[e..])) == Ok(end)
  {
    hide StepLine, Lines, TotalLength, SplitsAt;
    var lines, end := Lines(protocol), ScanLines(pton, START, Lines(protocol)).value;
    var e := end.lineEnd;
    var k := InterfaceSplit(pton, START, lines);
    LinesSplit(protocol, k);
    PrefixNotEmpty(protocol, k);
    ScanAdvances(pton, START, lines[..k]);
    var entered := ScanLines(pton, START, lines[..k]).value;
    OpenedPrefix(pton, protocol, k);
    var sep := Separator(protocol, e);
    var head := protocol[..e] + sep;
    mid := Moved(entered, [], e + |sep|, e + |sep|);
    assert lines == lines[..k] + lines[k..];
    ScanConcat(pton, START, lines[..k], lines[k..]);
    SplitTail(protocol, k);
    assert Spliced(protocol, e, text) == head + (text + protocol[e..]);
    LinesConcat(head, text + protocol[e..]);
    LinesConcat(text, protocol[e..]);
    ScanConcat(pton, START, Lines(head), Lines(text) + Lines(protocol[e..]));
    ScanConcat(pton, mid, Lines(text), Lines(protocol[e..]));
  }

  lemma SplitTail(protocol: string, k: nat)
    requires k <= |Lines(protocol)| && SplitsAt(protocol, k)
    ensures var e := TotalLength(Lines(protocol)[..k]); e <= |protocol| && Lines(protocol[e..]) == Lines(protocol)[k..]
  {
  }

  predicate NulFree(s: string) {
    forall i | 0 <= i < |s| :: s[i] != '\0'
  }

  lemma NulFreeIff(s: string)
    ensures NulFree(s) <==> !HasNul(s)
  {
    hide Find;
    FindFirst(s, '\0');
  }

  lemma DirectiveNulFree(name: string, value: string)
    requires IsPlainName(name) && ValueOk(value)
    ensures NulFree(QuickLine(name, value))
  {
    hide Trim;
    var line := QuickLine(name, value);
    forall i | 0 <= i < |line| ensures line[i] != '\0' {
      if |name| + 3 <= i < |line| - 1 {
        assert line[i] == value[i - |name| - 3];
      }
    }
  }

  lemma QuickLineNulFree(line: string)
    requires IsQuickLine(line)
    ensures NulFree(line)
  {
    hide ValueOk, IsQuickName, NulFree, QuickLine;
    var name, value :| IsQuickName(name) && ValueOk(value) && line == QuickLine(name, value);
    QuickNameChars(name);
    DirectiveNulFree(name, value);
  }

  lemma {:induction false} JoinedNulFree(lines: seq<string>)
    requires forall i | 0 <= i < |lines| :: NulFree(lines[i])
    ensures NulFree(Joined(lines))
    decreases |lines|
  {
    if lines != [] {
      JoinedNulFree(lines[1..]);
    }
  }

  lemma QuickTextNulFree(quick: string)
    requires IsQuickText(quick)
    ensures NulFree(quick)
  {
    hide IsQuickLine, NulFree, Lines;
    forall i | 0 <= i < |Lines(quick)| ensures NulFree(Lines(quick)[i]) {
      QuickLineNulFree(Lines(quick)[i]);
    }
    JoinedNulFree(Lines(quick));
    LinesJoin(quick);
  }

  lemma SplicedNulFree(protocol: string, e: nat, text: string)
    requires e <= |protocol| && NulFree(protocol) && NulFree(text)
    ensures NulFree(Spliced(protocol, e, text))
  {
    var sep := Separator(protocol, e);
    assert NulFree(sep);
    assert NulFree(protocol[..e]) && NulFree(protocol[e..]);
  }

  /** The quick directives of one configuration spliced into another are read back
      exactly: same bytes, and nothing else added. */
  lemma SplicedQuick(pton: Pton, protocol: string, quick: string)
    requires ScanConfig(pton, protocol).Ok? && IsQuickText(quick) && quick != []
    requires var end := ScanConfig(pton, protocol).value;
             end.quick == [] && end.dns == EMPTY_DNS && end.lineEnd <= |protocol|
    requires |Spliced(protocol, ScanConfig(pton, protocol).value.lineEnd, quick)| <= MAX_CONFIG_SIZE
    ensures var e := ScanConfig(pton, protocol).value.lineEnd;
            var scan := ScanConfig(pton, Spliced(protocol, e, quick));
            scan.Ok? && scan.value.quick == quick && scan.value.dns == EMPTY_DNS
            && scan.value.lineEnd == e + |Separator(protocol, e)|
  {
    hide StepLine, Lines, IsQuickLine, HasNul, NulFree, TotalLength, Joined;
    var end := ScanConfig(pton, protocol).value;
    var e := end.lineEnd;
    var mid := SplicedScan(pton, protocol, quick);
    LinesJoin(quick);
    LinesLength(quick);
    QuickLinesReadBack(pton, mid, Lines(quick));
    assert [] + quick == quick;
    ScanFrame(pton, Moved(mid, [], e, e), Lines(protocol[e..]), quick, mid.lineEnd, mid.offset + |quick|);
    NulFreeIff(protocol);
    NulFreeIff(Spliced(protocol, e, quick));
    QuickTextNulFree(quick);
    SplicedNulFree(protocol, e, quick);
  }

  lemma ScanConfigEnds(pton: Pton, data: string)
    requires ScanConfig(pton, data).Ok?
    ensures ScanLines(pton, START, Lines(data)) == ScanConfig(pton, data) && ScanConfig(pton, data).value.seen
    ensures data != [] && |data| <= MAX_CONFIG_SIZE && !HasNul(data)
  {
    hide ScanLines, HasNul, Lines;
  }

  /** Splice fixpoint. A snapshot built from an accepted configuration is itself
      accepted, carries exactly the same quick directives and no DNS settings, and
      leaves the reserve free. */
  lemma SpliceFixpoint(pton: Pton, config: string, protocol: string, reserve: nat)
    requires ParseEnvelope(pton, config).Ok?
    requires SnapshotOf(pton, protocol, ParseEnvelope(pton, config).value, reserve).Ok?
    ensures var envelope := ParseEnvelope(pton, config).value;
            var snapshot := SnapshotOf(pton, protocol, envelope, reserve).value;
            var again := ParseEnvelope(pton, snapshot);
            && again.Ok? && again.value.quick == envelope.quick && again.value.dns == EMPTY_DNS
            && |snapshot| + reserve <= MAX_CONFIG_SIZE
  {
    hide ScanConfig, IsQuickText, Spliced;
    var envelope := ParseEnvelope(pton, config).value;
    EnvelopeQuick(pton, config);
    ScanStays(pton, protocol);
    if envelope.quick != [] {
      SplicedQuick(pton, protocol, envelope.quick);
    }
    MeasureEmpty();
  }

  lemma MeasureEmpty()
    ensures MeasureOf(EMPTY_DNS) == MeasureOk(HEADER_SIZE)
  {
    assert ServerSizes([]) + DomainSizes([]) == [];
  }

  /** Every envelope that is accepted has DNS settings that serialize, and whose
      payload gives them back. */
  lemma EnvelopeDnsSerializes(pton: Pton, data: string)
    requires ParseEnvelope(pton, data).Ok?
    ensures var dns := ParseEnvelope(pton, data).value.dns;
            WellFormed(dns) && |Encode(dns)| <= MAX_DNS_PAYLOAD && Decode(Encode(dns)) == Some(dns)
  {
    hide ScanConfig, Encode, Decode;
    var dns := ParseEnvelope(pton, data).value.dns;
    MeasureIsExact(dns);
    EncodedDecodes(dns);
  }

  // ------------------------------------------------------------------------
  // The scanner as an object
  // ------------------------------------------------------------------------

  class ConfigScanner {
    var section: Section
    var interfaceSeen: bool
    var quickConfig: string
    var interfaceLineEnd: nat
    var offset: nat
    const dns: DnsBuilder

    ghost function View(): Scan
      reads this, dns
    {
      Scan(section, interfaceSeen, quickConfig, dns.View(), interfaceLineEnd, offset)
    }

    constructor ()
      ensures View() == START && fresh(dns)
    {
      section, interfaceSeen, quickConfig, interfaceLineEnd, offset := NoSection, false, [], 0, 0;
      dns := new DnsBuilder();
    }

    method TakeSection(line: string) returns (error: Option<ConfigError>)
      requires line != []
      modifies this
      ensures StepSection(old(View()), line) == if error.None? then Ok(View()) else Err(error.value)
    {
      hide SpanEqual, TokenIsSafe;
      if line[|line| - 1] != ']' || |line| < 2 || !TokenIsSafe(line[1..|line| - 1]) {
        return Some(InvalidData);
      }
      if SpanEqual(line[1..|line| - 1], "Interface") {
        if interfaceSeen || section != NoSection {
          return Some(InvalidData);
        }
        interfaceSeen, section, interfaceLineEnd := true, InInterface, offset;
      } else {
        if !interfaceSeen {
          return Some(InvalidData);
        }
        section := InOther;
      }
      return None;
    }

    method TakeInterfaceDirective(pton: Pton, key: string, value: string) returns (error: Option<ConfigError>)
      modifies this, dns
      ensures StepInterface(pton, old(View()), key, value) == if error.None? then Ok(View()) else Err(error.value)
    {
      hide SpanEqual, ListOk, Items, Extended, QuickName;
      if SpanEqual(key, "DNS") {
        var ok := dns.AddValue(pton, value);
        return if ok then None else Some(InvalidData);
      }
      var quickName := QuickName(key);
      if quickName.Some? {
        var length := |quickName.value| + 3 + |value| + 1;
        if length > MAX_CONFIG_SIZE || |quickConfig| > MAX_CONFIG_SIZE - length {
          return Some(TooLarge);
        }
        quickConfig := quickConfig + QuickLine(quickName.value, value);
      }
      return None;
    }

    method TakeDirective(pton: Pton, line: string) returns (error: Option<ConfigError>)
      modifies this, dns
      ensures StepDirective(pton, old(View()), line) == if error.None? then Ok(View()) else Err(error.value)
    {
      hide SpanEqual, TokenIsSafe, StepInterface, IsUnsafeDirective, Find, Trim;
      var equals := FindByte(line, '=');
      if equals.None? || section == NoSection {
        return Some(InvalidData);
      }
      var start, end := TrimSpan(line[..equals.value]);
      var key := line[..equals.value][start..end];
      start, end := TrimSpan(line[equals.value + 1..]);
      var value := line[equals.value + 1..][start..end];
      if !TokenIsSafe(key) {
        return Some(InvalidData);
      }
      if IsUnsafeDirective(key) {
        return Some(UnsafeDirective);
      }
      if section == InInterface {
        error := TakeInterfaceDirective(pton, key, value);
        return;
      }
      return None;
    }

    method TakeLine(pton: Pton, physical: string) returns (error: Option<ConfigError>)
      modifies this, dns
      ensures StepLine(pton, old(View()), physical) == if error.None? then Ok(View()) else Err(error.value)
    {
      hide StepSection, StepDirective, Find, Trim;
      var body := if EndsLine(physical) then physical[..|physical| - 1] else physical;
      var comment := FindByte(body, '#');
      if comment.Some? {
        body := body[..comment.value];
      }
      assert body == Stripped(physical);
      for i := 0 to |body|
        invariant forall k | 0 <= k < i :: !IsControl(body[k])
      {
        if IsControl(body[i]) {
          return Some(InvalidData);
        }
      }
      offset := offset + |physical|;
      var start, end := TrimSpan(body);
      var line := body[start..end];
      if line == [] {
        return None;
      }
      if line[0] == '[' {
        error := TakeSection(line);
      } else {
        error := TakeDirective(pton, line);
      }
    }
  }

  lemma HeadLine(rest: string)
    requires rest != []
    ensures var newline := Find(rest, '\n');
            var n := if newline.Some? then newline.value + 1 else |rest|;
            Lines(rest) == [rest[..n]] + Lines(rest[n..])
  {
    if Find(rest, '\n').None? {
      assert rest[..|rest|] == rest && rest[|rest|..] == [];
      assert Lines([]) == [];
    }
  }

  lemma NextLine(data: string, offset: nat)
    requires offset < |data|
    ensures var newline := Find(data[offset..], '\n');
            var next := if newline.Some? then offset + newline.value + 1 else |data|;
            offset < next <= |data| && Lines(data[offset..]) == [data[offset..next]] + Lines(data[next..])
  {
    hide Lines;
    var rest := data[offset..];
    HeadLine(rest);
    var newline := Find(rest, '\n');
    var n := if newline.Some? then newline.value + 1 else |rest|;
    assert rest[..n] == data[offset..offset + n] && rest[n..] == data[offset + n..];
  }

  lemma NoTextNoLines(data: string)
    requires data == []
    ensures Lines(data) == []
  {
  }

  lemma ScanCons(pton: Pton, st: Scan, line: string, lines: seq<string>)
    ensures var next := StepLine(pton, st, line);
            ScanLines(pton, st, [line] + lines) == if next.Ok? then ScanLines(pton, next.value, lines) else next
  {
    hide StepLine;
    assert ([line] + lines)[1..] == lines;
  }

  /** The scanner's loop. */
  method ScanConfigEnvelope(pton: Pton, data: string) returns (r: Result<Scan>)
    ensures r == ScanConfig(pton, data)
  {
    hide StepLine, Lines;
    if |data| > MAX_CONFIG_SIZE {
      return Err(TooLarge);
    }
    var nul := FindByte(data, '\0');
    if |data| == 0 || nul.Some? {
      return Err(InvalidData);
    }
    var scanner := new ConfigScanner();
    var offset := 0;
    assert data[0..] == data;
    while offset < |data|
      invariant 0 <= offset <= |data|
      invariant ScanLines(pton, START, Lines(data)) == ScanLines(pton, scanner.View(), Lines(data[offset..]))
    {
      var newline := FindByte(data[offset..], '\n');
      var physicalEnd := if newline.Some? then offset + newline.value + 1 else |data|;
      NextLine(data, offset);
      ScanCons(pton, scanner.View(), data[offset..physicalEnd], Lines(data[physicalEnd..]));
      var error := scanner.TakeLine(pton, data[offset..physicalEnd]);
      if error.Some? {
        return Err(error.value);
      }
      offset := physicalEnd;
    }
    NoTextNoLines(data[offset..]);
    if !scanner.interfaceSeen {
      return Err(MissingStructure);
    }
    if |scanner.dns.domains| > 0 && |scanner.dns.servers| == 0 {
      return Err(InvalidData);
    }
    r := Ok(Scan(scanner.section, scanner.interfaceSeen, scanner.quickConfig,
                 DnsConfig(scanner.dns.servers, scanner.dns.domains),
                 scanner.interfaceLineEnd, scanner.offset));
  }

  method ParseConfigEnvelope(pton: Pton, data: string) returns (r: Result<Envelope>)
    ensures r == ParseEnvelope(pton, data)
  {
    hide ScanConfig;
    var scan := ScanConfigEnvelope(pton, data);
    if scan.Err? {
      return Err(scan.error);
    }
    var measure := Measure(scan.value.dns);
    match measure {
      case MeasureOk(_) => return Ok(Envelope(scan.value.quick, scan.value.dns, scan.value.lineEnd));
      case MeasureTooLarge => return Err(TooLarge);
      case MeasureInvalid => return Err(InvalidData);
    }
  }

  /** Copies three spans into a fresh buffer, at a moving offset. */
  method Splice(protocol: string, lineEnd: nat, text: string) returns (result: string)
    requires lineEnd <= |protocol|
    ensures result == Spliced(protocol, lineEnd, text)
  {
    var separator := if lineEnd > 0 && protocol[lineEnd - 1] != '\n' then 1 else 0;
    var buffer := new char[|protocol| + |text| + separator];
    Put(buffer, 0, protocol[..lineEnd]);
    var offset := lineEnd;
    if separator > 0 {
      Put(buffer, offset, "\n");
      offset := offset + 1;
    }
    Put(buffer, offset, text);
    offset := offset + |text|;
    Put(buffer, offset, protocol[lineEnd..]);
    result := buffer[..];
    assert result == buffer[..offset + |protocol[lineEnd..]|];
  }

  method BuildSnapshot(pton: Pton, protocol: string, envelope: Envelope, reserve: nat) returns (r: Result<string>)
    ensures r == SnapshotOf(pton, protocol, envelope, reserve)
  {
    hide ScanConfig;
    var scan := ScanConfigEnvelope(pton, protocol);
    if scan.Err? {
      return Err(scan.error);
    }
    var found := scan.value;
    if |found.quick| > 0 || |found.dns.servers| > 0 || |found.dns.domains| > 0 {
      return Err(InvalidData);
    }
    ScanStays(pton, protocol);
    var separator := if |envelope.quick| > 0 && found.lineEnd > 0 && protocol[found.lineEnd - 1] != '\n' then 1 else 0;
    if reserve > MAX_CONFIG_SIZE || |envelope.quick| > MAX_CONFIG_SIZE - reserve
       || |protocol| > MAX_CONFIG_SIZE - reserve - |envelope.quick|
       || separator > MAX_CONFIG_SIZE - reserve - |envelope.quick| - |protocol| {
      return Err(TooLarge);
    }
    if |envelope.quick| == 0 {
      return Ok(protocol);
    }
    var snapshot := Splice(protocol, found.lineEnd, envelope.quick);
    r := Ok(snapshot);
  }
}
