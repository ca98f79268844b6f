/** The recogniser that watches awg-quick's command echoes and decides whether a
    failed start ended before DNS, routes or the firewall were touched. */
module QuickDiagnostics {
  import opened Amneziawg
  import opened Text

  const LINE_LIMIT: nat := 16 * 1024

  datatype Stage = StageNone | Interface | Userspace | Setconf | Address | Mtu | Dns | Route | Firewall

  function Rank(s: Stage): nat {
    match s
    case StageNone => 0
    case Interface => 1
    case Userspace => 2
    case Setconf => 3
    case Address => 4
    case Mtu => 5
    case Dns => 6
    case Route => 7
    case Firewall => 8
  }

  // ------------------------------------------------------------------------
  // What a line is
  // ------------------------------------------------------------------------

  datatype Kind =
    | Command(stage: Stage, userspace: bool, cleanup: bool)
    | Fallback
    | LinkDelete
    | OtherTeardown
    | Claim
    | UnknownCommand
    | Message

  const FALLBACK_MARKER: string :=
    "[!] Missing WireGuard (Amnezia VPN) kernel module. Falling back to slow userspace implementation."

  predicate IsTeardown(line: string) {
    || "[#] resolvconf -d " <= line
    || "[#] ip -4 rule delete " <= line
    || "[#] ip -6 rule delete " <= line
    || "[#] ip -4 route delete " <= line
    || "[#] ip -6 route delete " <= line
    || "[#] ip link delete dev " <= line
  }

  const CLAIM_PREFIX: string := "[#] ip link set dev "
  const CLAIM_ALIAS: string := " alias " + LINK_ALIAS_PREFIX

  predicate IsLinkClaim(line: string) {
    && CLAIM_PREFIX <= line
    && var rest := line[|CLAIM_PREFIX|..];
       var space := Find(rest, ' ');
    && space.Some? && space.value <= MAX_INTERFACE_LENGTH
    && |rest| - space.value == |CLAIM_ALIAS| + LINK_TOKEN_LENGTH
    && CLAIM_ALIAS <= rest[space.value..]
    && NameIsValid(rest[..space.value]) && TokenIsValid(rest[space.value + |CLAIM_ALIAS|..])
  }

  function CommandStage(line: string): Stage {
    if "[#] ip link add " <= line then Interface
    else if "[#] amneziawg-go " <= line then Userspace
    else if "[#] awg setconf " <= line then Setconf
    else if "[#] ip -4 address add " <= line || "[#] ip -6 address add " <= line then Address
    else if "[#] ip link set mtu " <= line then Mtu
    else if "[#] resolvconf -a " <= line then Dns
    else if "[#] awg set " <= line || "[#] ip -4 rule add " <= line || "[#] ip -6 rule add " <= line
            || "[#] ip -4 route add " <= line || "[#] ip -6 route add " <= line then Route
    else if "[#] sysctl -q net.ipv4.conf.all.src_valid_mark=1" <= line || IsFirewallLoad(line) then Firewall
    else StageNone
  }

  /** Firewall commands that the tear-down path issues as well. */
  predicate IsFirewallLoad(line: string) {
    "[#] nft -f " <= line || "[#] iptables-restore -n" <= line || "[#] ip6tables-restore -n" <= line
  }

  predicate IsCleanup(line: string) {
    CommandStage(line) == Firewall && !("[#] sysctl -q net.ipv4.conf.all.src_valid_mark=1" <= line)
  }

  function KindOf(line: string): Kind {
    if line == FALLBACK_MARKER then Fallback
    else if IsTeardown(line) then (if "[#] ip link delete dev " <= line then LinkDelete else OtherTeardown)
    else if CommandStage(line) != StageNone then
      Command(CommandStage(line), CommandStage(line) == Userspace, IsCleanup(line))
    else if "[#]" <= line then (if IsLinkClaim(line) then Claim else UnknownCommand)
    else Message
  }

  // ------------------------------------------------------------------------
  // The recogniser
  // ------------------------------------------------------------------------

  /** What has been concluded from the lines so far. */
  datatype Findings = Findings(
    userspaceStarted: bool, current: Stage, candidate: Stage,
    interfaceSeen: bool, teardownSeen: bool, blocked: bool)

  datatype Recogniser = Recogniser(line: string, discarding: bool, found: Findings)

  const NO_FINDINGS := Findings(false, StageNone, StageNone, false, false, false)
  const NEW_RECOGNISER := Recogniser([], false, NO_FINDINGS)

  function ObserveStage(f: Findings, stage: Stage): Findings {
    f.(blocked := f.blocked || Rank(stage) >= Rank(Dns) || Rank(stage) < Rank(f.current) || f.teardownSeen,
       interfaceSeen := f.interfaceSeen || stage == Interface)
  }

  function NoteFailure(f: Findings, nonempty: bool): Findings {
    if nonempty && f.current != StageNone && f.candidate == StageNone then f.(candidate := f.current) else f
  }

  function Classified(f: Findings, kind: Kind, nonempty: bool): Findings {
    match kind
    case Fallback =>
      ObserveStage(f, Userspace).(candidate := if f.candidate == Interface then StageNone else f.candidate,
                                  current := Userspace, userspaceStarted := true)
    case LinkDelete => f.(teardownSeen := true)
    case OtherTeardown => f.(blocked := true)
    case Command(stage, userspace, cleanup) =>
      var seen := ObserveStage(f, stage).(userspaceStarted := f.userspaceStarted || userspace);
      if cleanup && f.candidate != StageNone then seen else seen.(current := stage, candidate := StageNone)
    case Claim =>
      NoteFailure(f.(blocked := f.blocked || f.teardownSeen || Rank(f.current) > Rank(Userspace)), nonempty)
    case UnknownCommand => NoteFailure(f.(blocked := true), nonempty)
    case Message => NoteFailure(f, nonempty)
  }

  function ClassifyLine(f: Findings, line: string): Findings {
    Classified(f, KindOf(line), line != [])
  }

  function ConsumeByte(r: Recogniser, c: char): Recogniser {
    if c == '\n' then
      Recogniser([], false, if r.discarding then r.found else ClassifyLine(r.found, r.line))
    else if r.discarding then r
    else
      var found := if c == '\0' || c == '\r' then r.found.(blocked := true) else r.found;
      if |r.line| < LINE_LIMIT then r.(line := r.line + [c], found := found)
      else Recogniser([], true, ClassifyLine(found.(blocked := true), r.line))
  }

  function Consumed(r: Recogniser, data: string): Recogniser
    decreases |data|
  {
    if data == [] then r else Consumed(ConsumeByte(r, data[0]), data[1..])
  }

  function Finished(r: Recogniser): Recogniser {
    Recogniser([], r.discarding,
               if !r.discarding && r.line != [] then ClassifyLine(r.found.(blocked := true), r.line) else r.found)
  }

  datatype Exited = Exited(code: nat) | Signaled | NotExited

  datatype Child = Child(exited: bool, diagnosticsComplete: bool, wait: Exited)

  predicate Evidence(f: Findings) {
    f.interfaceSeen && f.teardownSeen && !f.blocked && Rank(Interface) <= Rank(f.current) <= Rank(Mtu)
  }

  predicate FailedBeforeRoutes(f: Findings, child: Child) {
    && child.exited && child.diagnosticsComplete && child.wait.Exited? && child.wait.code != 0 && child.wait.code != 127
    && Evidence(f)
  }

  // ------------------------------------------------------------------------
  // Chunks
  // ------------------------------------------------------------------------

  lemma {:induction false} ConsumeConcat(r: Recogniser, a: string, b: string)
    ensures Consumed(r, a + b) == Consumed(Consumed(r, a), b)
    decreases |a|
  {
    hide ConsumeByte;
    if a == [] {
      assert a + b == b;
    } else {
      assert (a + b)[1..] == a[1..] + b;
      ConsumeConcat(ConsumeByte(r, a[0]), a[1..], b);
    }
  }

  function Whole(chunks: seq<string>): string {
    if chunks == [] then [] else chunks[0] + Whole(chunks[1..])
  }

  function ConsumedChunks(r: Recogniser, chunks: seq<string>): Recogniser
    decreases |chunks|
  {
    if chunks == [] then r else ConsumedChunks(Consumed(r, chunks[0]), chunks[1..])
  }

  /** The outcome does not depend on how the stream was cut. */
  lemma {:induction false} ChunksDoNotMatter(r: Recogniser, chunks: seq<string>)
    ensures ConsumedChunks(r, chunks) == Consumed(r, Whole(chunks))
    decreases |chunks|
  {
    hide ConsumeByte;
    if chunks != [] {
      ChunksDoNotMatter(Consumed(r, chunks[0]), chunks[1..]);
      ConsumeConcat(r, chunks[0], Whole(chunks[1..]));
    }
  }

  // ------------------------------------------------------------------------
  // Complete lines
  // ------------------------------------------------------------------------

  /** The lines of a stream that ends at the end of one. */
  function CompleteLines(data: string): Option<seq<string>>
    decreases |data|
  {
    if data == [] then Some([])
    else
      var newline := Find(data, '\n');
      if newline.None? then None
      else
        var rest := CompleteLines(data[newline.value + 1..]);
        if rest.None? then None else Some([data[..newline.value]] + rest.value)
  }

  predicate IsUnquestionable(line: string) {
    |line| <= LINE_LIMIT && forall i | 0 <= i < |line| :: line[i] != '\0' && line[i] != '\r'
  }

  function ClassifiedLines(f: Findings, lines: seq<string>): Findings
    decreases |lines|
  {
    if lines == [] then f else ClassifiedLines(ClassifyLine(f, lines[0]), lines[1..])
  }

  lemma ClassifyKeepsBlocked(f: Findings, line: string)
    requires f.blocked
    ensures ClassifyLine(f, line).blocked
  {
    hide KindOf;
  }

  lemma ByteKeepsBlocked(r: Recogniser, c: char)
    requires r.found.blocked
    ensures ConsumeByte(r, c).found.blocked
  {
    hide ClassifyLine;
    ClassifyKeepsBlocked(r.found, r.line);
    ClassifyKeepsBlocked(r.found.(blocked := true), r.line);
  }

  lemma {:induction false} ConsumeKeepsBlocked(r: Recogniser, data: string)
    requires r.found.blocked
    ensures Consumed(r, data).found.blocked && Finished(Consumed(r, data)).found.blocked
    decreases |data|
  {
    hide ConsumeByte, ClassifyLine;
    if data == [] {
      ClassifyKeepsBlocked(r.found.(blocked := true), r.line);
    } else {
      ByteKeepsBlocked(r, data[0]);
      ConsumeKeepsBlocked(ConsumeByte(r, data[0]), data[1..]);
    }
  }

  /** Bytes of one line that fit are collected as they are. */
  lemma {:induction false} LineCollects(r: Recogniser, line: string)
    requires !r.discarding && |r.line| + |line| <= LINE_LIMIT && forall i | 0 <= i < |line| :: line[i] != '\n'
    requires forall i | 0 <= i < |line| :: line[i] != '\0' && line[i] != '\r'
    ensures Consumed(r, line) == r.(line := r.line + line)
    decreases |line|
  {
    hide ClassifyLine;
    if line == [] {
      assert r.line + [] == r.line;
    } else {
      LineCollects(ConsumeByte(r, line[0]), line[1..]);
      assert r.line + [line[0]] + line[1..] == r.line + line;
    }
  }

  /** A line too long, or with a byte no command echo has, blocks recovery. */
  lemma {:induction false} BadLineBlocks(r: Recogniser, line: string)
    requires !r.discarding && |r.line| <= LINE_LIMIT && forall i | 0 <= i < |line| :: line[i] != '\n'
    requires |r.line| + |line| > LINE_LIMIT || exists i | 0 <= i < |line| :: line[i] == '\0' || line[i] == '\r'
    ensures Consumed(r, line).found.blocked
    decreases |line|
  {
    hide ClassifyLine;
    var next := ConsumeByte(r, line[0]);
    if next.found.blocked {
      ConsumeKeepsBlocked(next, line[1..]);
    } else if |r.line| == LINE_LIMIT {
      ClassifyKeepsBlocked(r.found.(blocked := true), r.line);
    } else {
      assert forall i | 1 <= i < |line| :: line[i] == line[1..][i - 1];
      BadLineBlocks(next, line[1..]);
    }
  }

  lemma OneLineConsumed(f: Findings, line: string)
    requires IsUnquestionable(line) && forall i | 0 <= i < |line| :: line[i] != '\n'
    ensures Consumed(Recogniser([], false, f), line + "\n") == Recogniser([], false, ClassifyLine(f, line))
  {
    hide ClassifyLine;
    var r := Recogniser([], false, f);
    ConsumeConcat(r, line, "\n");
    LineCollects(r, line);
    assert [] + line == line;
    assert Consumed(r.(line := line), "\n") == Consumed(ConsumeByte(r.(line := line), '\n'), ("\n")[1..]);
  }

  predicate AllUnquestionable(lines: seq<string>) {
    forall i | 0 <= i < |lines| :: IsUnquestionable(lines[i])
  }

  lemma ConsAll(line: string, lines: seq<string>)
    ensures AllUnquestionable([line] + lines) <==> IsUnquestionable(line) && AllUnquestionable(lines)
    ensures forall f :: ClassifiedLines(f, [line] + lines) == ClassifiedLines(ClassifyLine(f, line), lines)
  {
    hide IsUnquestionable, ClassifyLine;
    var all := [line] + lines;
    assert all[1..] == lines && all[0] == line;
    assert forall i | 0 <= i < |lines| :: all[i + 1] == lines[i];
  }

  /** A line that is not complete, or not unquestionable, blocks recovery; any
      other is classified, and nothing else happens. */
  lemma {:induction false} StreamMeaning(f: Findings, data: string)
    ensures var r := Finished(Consumed(Recogniser([], false, f), data));
            var lines := CompleteLines(data);
            if lines.Some? && AllUnquestionable(lines.value) then r.found == ClassifiedLines(f, lines.value)
            else r.found.blocked
    decreases |data|
  {
    hide ClassifyLine, ConsumeByte, IsUnquestionable;
    var r := Recogniser([], false, f);
    if data != [] {
      var newline := Find(data, '\n');
      FindFirst(data, '\n');
      if newline.None? {
        UnfinishedLine(f, data);
      } else {
        var line, rest := data[..newline.value], data[newline.value + 1..];
        assert data == line + "\n" + rest;
        ConsumeConcat(r, line + "\n", rest);
        var more := CompleteLines(rest);
        if more.Some? {
          ConsAll(line, more.value);
        }
        if IsUnquestionable(line) {
          OneLineConsumed(f, line);
          StreamMeaning(ClassifyLine(f, line), rest);
        } else {
          QuestionableLine(f, line);
          ConsumeKeepsBlocked(Consumed(r, line + "\n"), rest);
        }
      }
    }
  }

  lemma QuestionableLine(f: Findings, line: string)
    requires !IsUnquestionable(line) && forall i | 0 <= i < |line| :: line[i] != '\n'
    ensures Consumed(Recogniser([], false, f), line + "\n").found.blocked
  {
    hide ClassifyLine, ConsumeByte;
    var r := Recogniser([], false, f);
    BadLineBlocks(r, line);
    ConsumeConcat(r, line, "\n");
    ConsumeKeepsBlocked(Consumed(r, line), "\n");
  }

  lemma UnfinishedLine(f: Findings, data: string)
    requires data != [] && forall i | 0 <= i < |data| :: data[i] != '\n'
    ensures Finished(Consumed(Recogniser([], false, f), data)).found.blocked
  {
    hide ClassifyLine, ConsumeByte;
    var r := Recogniser([], false, f);
    if IsUnquestionable(data) {
      LineCollects(r, data);
      ClassifyKeepsBlocked(f.(blocked := true), data);
      assert [] + data == data;
    } else {
      BadLineBlocks(r, data);
      ConsumeKeepsBlocked(Consumed(r, data), []);
    }
  }

  // ------------------------------------------------------------------------
  // The order of commands
  // ------------------------------------------------------------------------

  /** The stage a line enters, if it enters one. */
  function Enters(k: Kind): Stage {
    match k
    case Command(stage, _, _) => stage
    case Fallback => Userspace
    case _ => StageNone
  }

  /** Two lines in the only order a failed start that touched nothing else shows:
      stages forwards, the claim before the link is configured, deleting the link
      after everything. */
  predicate InOrder(first: Kind, second: Kind) {
    && (Rank(Enters(first)) <= Rank(Enters(second)) || Enters(second) == StageNone)
    && (first == LinkDelete ==> Enters(second) == StageNone && second != Claim)
    && (Rank(Enters(first)) > Rank(Userspace) ==> second != Claim)
  }

  predicate Harmless(k: Kind) {
    k != OtherTeardown && k != UnknownCommand && Rank(Enters(k)) <= Rank(Mtu)
  }

  predicate CleanOrder(kinds: seq<Kind>) {
    && (forall i | 0 <= i < |kinds| :: Harmless(kinds[i]))
    && (forall i, j | 0 <= i < j < |kinds| :: InOrder(kinds[i], kinds[j]))
  }

  function Kinds(lines: seq<string>): (r: seq<Kind>)
    ensures |r| == |lines| && forall i | 0 <= i < |lines| :: r[i] == KindOf(lines[i])
  {
    if lines == [] then [] else [KindOf(lines[0])] + Kinds(lines[1..])
  }

  predicate IsRealKind(k: Kind) {
    k.Command? ==> k.stage != StageNone && (k.cleanup ==> k.stage == Firewall)
  }

  lemma KindIsReal(line: string)
    ensures IsRealKind(KindOf(line))
  {
  }

  predicate Entered(kinds: seq<Kind>, stage: Stage) {
    exists i | 0 <= i < |kinds| :: Enters(kinds[i]) == stage
  }

  /** What the findings say about the lines they come from. */
  predicate Reflects(f: Findings, kinds: seq<Kind>) {
    && (!f.blocked <==> CleanOrder(kinds))
    && (f.interfaceSeen <==> Entered(kinds, Interface))
    && (f.teardownSeen <==> LinkDelete in kinds)
    && (!f.blocked ==>
          && (forall i | 0 <= i < |kinds| :: Rank(Enters(kinds[i])) <= Rank(f.current))
          && (f.current == StageNone || Entered(kinds, f.current)))
  }

  lemma CleanOrderSnoc(kinds: seq<Kind>, k: Kind)
    ensures CleanOrder(kinds + [k]) <==>
              CleanOrder(kinds) && Harmless(k) && forall i | 0 <= i < |kinds| :: InOrder(kinds[i], k)
  {
    hide Harmless, InOrder;
    var all := kinds + [k];
    assert all[|kinds|] == k && forall i | 0 <= i < |kinds| :: all[i] == kinds[i];
    if CleanOrder(all) {
      forall i | 0 <= i < |kinds| ensures InOrder(kinds[i], k) && Harmless(kinds[i]) {
        assert InOrder(all[i], all[|kinds|]) && Harmless(all[i]);
      }
      forall i, j | 0 <= i < j < |kinds| ensures InOrder(kinds[i], kinds[j]) {
        assert InOrder(all[i], all[j]);
      }
    }
  }

  /** A line fits after a clean trace exactly when the findings let it pass. */
  predicate Passes(f: Findings, k: Kind) {
    && Harmless(k)
    && (Enters(k) != StageNone ==> Rank(f.current) <= Rank(Enters(k)))
    && (f.teardownSeen ==> Enters(k) == StageNone && k != Claim)
    && (Rank(f.current) > Rank(Userspace) ==> k != Claim)
  }

  lemma FitsWhenPasses(f: Findings, kinds: seq<Kind>, k: Kind)
    requires Reflects(f, kinds) && !f.blocked
    ensures Passes(f, k) <==> Harmless(k) && forall i | 0 <= i < |kinds| :: InOrder(kinds[i], k)
  {
    if Harmless(k) && forall i | 0 <= i < |kinds| :: InOrder(kinds[i], k) {
      if f.teardownSeen {
        var i :| 0 <= i < |kinds| && kinds[i] == LinkDelete;
        assert InOrder(kinds[i], k);
      }
      if f.current != StageNone {
        var i :| 0 <= i < |kinds| && Enters(kinds[i]) == f.current;
        assert InOrder(kinds[i], k);
      }
    }
  }

  lemma ClassifiedFindings(f: Findings, k: Kind, nonempty: bool)
    requires IsRealKind(k)
    ensures var g := Classified(f, k, nonempty);
            && (!g.blocked <==> !f.blocked && Passes(f, k))
            && (g.interfaceSeen <==> f.interfaceSeen || Enters(k) == Interface)
            && (g.teardownSeen <==> f.teardownSeen || k == LinkDelete)
            && (!g.blocked ==> g.current == if Enters(k) != StageNone then Enters(k) else f.current)
  {
  }

  lemma EnteredSnoc(kinds: seq<Kind>, k: Kind, stage: Stage)
    ensures Entered(kinds + [k], stage) <==> Entered(kinds, stage) || Enters(k) == stage
  {
    var all := kinds + [k];
    assert all[|kinds|] == k;
    if Entered(kinds, stage) {
      var i :| 0 <= i < |kinds| && Enters(kinds[i]) == stage;
      assert all[i] == kinds[i];
    }
  }

  lemma ReflectsSnoc(f: Findings, kinds: seq<Kind>, k: Kind, nonempty: bool)
    requires Reflects(f, kinds) && IsRealKind(k)
    ensures Reflects(Classified(f, k, nonempty), kinds + [k])
  {
    hide CleanOrder, Harmless, InOrder, Classified, Entered;
    var g, all := Classified(f, k, nonempty), kinds + [k];
    ClassifiedFindings(f, k, nonempty);
    CleanOrderSnoc(kinds, k);
    EnteredSnoc(kinds, k, Interface);
    EnteredSnoc(kinds, k, g.current);
    if !f.blocked {
      FitsWhenPasses(f, kinds, k);
    }
    if !g.blocked {
      forall i | 0 <= i < |all| ensures Rank(Enters(all[i])) <= Rank(g.current) {
        assert i < |kinds| ==> all[i] == kinds[i];
      }
    }
  }

  lemma {:induction false} ClassifiedSnoc(f: Findings, lines: seq<string>, last: string)
    ensures ClassifiedLines(f, lines + [last]) == ClassifyLine(ClassifiedLines(f, lines), last)
    decreases |lines|
  {
    hide ClassifyLine;
    if lines == [] {
      assert [last][1..] == [];
    } else {
      assert (lines + [last])[1..] == lines[1..] + [last];
      ClassifiedSnoc(ClassifyLine(f, lines[0]), lines[1..], last);
    }
  }

  lemma KindsSnoc(lines: seq<string>, last: string)
    ensures Kinds(lines + [last]) == Kinds(lines) + [KindOf(last)]
  {
  }

  lemma {:induction false} FindingsReflect(lines: seq<string>)
    ensures Reflects(ClassifiedLines(NO_FINDINGS, lines), Kinds(lines))
    decreases |lines|
  {
    hide KindOf, Classified, CleanOrder;
    if lines == [] {
      assert CleanOrder([]) by {
        NothingInOrder();
      }
    } else {
      var before, last := lines[..|lines| - 1], lines[|lines| - 1];
      FindingsReflect(before);
      assert lines == before + [last];
      ClassifiedSnoc(NO_FINDINGS, before, last);
      KindsSnoc(before, last);
      KindIsReal(last);
      ReflectsSnoc(ClassifiedLines(NO_FINDINGS, before), Kinds(before), KindOf(last), last != []);
    }
  }

  lemma NothingInOrder()
    ensures CleanOrder([])
  {
  }

  /** A stream from which a start may be judged to have failed before any DNS,
      route or firewall command: complete unquestionable lines, only harmless ones,
      in order, with the link both added and deleted. */
  predicate CleanFailure(data: string) {
    var lines := CompleteLines(data);
    && lines.Some? && AllUnquestionable(lines.value)
    && CleanOrder(Kinds(lines.value))
    && Entered(Kinds(lines.value), Interface) && LinkDelete in Kinds(lines.value)
  }

  /** Recovery evidence is exact: however the stream is cut, the recogniser ends
      with evidence if and only if the stream is a clean failure. */
  lemma EvidenceIsExact(chunks: seq<string>)
    ensures Evidence(Finished(ConsumedChunks(NEW_RECOGNISER, chunks)).found) <==> CleanFailure(Whole(chunks))
  {
    hide ConsumeByte, ClassifyLine, CleanOrder, IsUnquestionable, Harmless;
    ChunksDoNotMatter(NEW_RECOGNISER, chunks);
    StreamMeaning(NO_FINDINGS, Whole(chunks));
    var lines := CompleteLines(Whole(chunks));
    if lines.Some? && AllUnquestionable(lines.value) {
      var kinds := Kinds(lines.value);
      FindingsReflect(lines.value);
      if CleanOrder(kinds) && Entered(kinds, Interface) {
        LastStage(ClassifiedLines(NO_FINDINGS, lines.value), kinds);
      }
    }
  }

  lemma LastStage(f: Findings, kinds: seq<Kind>)
    requires Reflects(f, kinds) && CleanOrder(kinds) && Entered(kinds, Interface)
    ensures Rank(Interface) <= Rank(f.current) <= Rank(Mtu)
  {
    var i :| 0 <= i < |kinds| && Enters(kinds[i]) == Interface;
    assert Rank(Enters(kinds[i])) <= Rank(f.current);
    var j :| 0 <= j < |kinds| && Enters(kinds[j]) == f.current;
    assert Harmless(kinds[j]);
  }

  // ------------------------------------------------------------------------
  // The object
  // ------------------------------------------------------------------------

  /** The adapter's bounded state: a fixed line buffer filled in place. */
  class Diagnostics {
    const line: array<char>
    var length: nat
    var discarding: bool
    var userspaceStarted: bool
    var currentStage: Stage
    var failureCandidate: Stage
    var interfaceSeen: bool
    var teardownSeen: bool
    var recoveryBlocked: bool

    ghost predicate Valid()
      reads this
    {
      line.Length == LINE_LIMIT && length <= LINE_LIMIT
    }

    ghost function Found(): Findings
      reads this
    {
      Findings(userspaceStarted, currentStage, failureCandidate, interfaceSeen, teardownSeen, recoveryBlocked)
    }

    ghost function View(): Recogniser
      requires Valid()
      reads this, line
    {
      Recogniser(line[..length], discarding, Found())
    }

    constructor ()
      ensures Valid() && fresh(line) && View() == NEW_RECOGNISER
    {
      line := new char[LINE_LIMIT];
      length, discarding := 0, false;
      userspaceStarted, currentStage, failureCandidate := false, StageNone, StageNone;
      interfaceSeen, teardownSeen, recoveryBlocked := false, false, false;
    }

    method Observe(stage: Stage)
      modifies this`recoveryBlocked, this`interfaceSeen
      ensures Found() == ObserveStage(old(Found()), stage)
    {
      if Rank(stage) >= Rank(Dns) || Rank(stage) < Rank(currentStage) || teardownSeen {
        recoveryBlocked := true;
      }
      if stage == Interface {
        interfaceSeen := true;
      }
    }

    method ClassifyCommand(kind: Kind)
      requires kind.Command?
      modifies this`recoveryBlocked, this`interfaceSeen, this`userspaceStarted, this`currentStage, this`failureCandidate
      ensures Found() == Classified(old(Found()), kind, true)
    {
      if kind.userspace {
        userspaceStarted := true;
      }
      Observe(kind.stage);
      if kind.cleanup && failureCandidate != StageNone {
        return;
      }
      currentStage := kind.stage;
      failureCandidate := StageNone;
    }

    method ClassifyMessage(kind: Kind, nonempty: bool)
      requires kind == Claim || kind == UnknownCommand || kind == Message
      modifies this`recoveryBlocked, this`failureCandidate
      ensures Found() == Classified(old(Found()), kind, nonempty)
    {
      if kind != Message && (kind != Claim || teardownSeen || Rank(currentStage) > Rank(Userspace)) {
        recoveryBlocked := true;
      }
      if nonempty && currentStage != StageNone && failureCandidate == StageNone {
        failureCandidate := currentStage;
      }
    }

    method Classify()
      requires Valid()
      modifies this`recoveryBlocked, this`interfaceSeen, this`teardownSeen, this`userspaceStarted, this`currentStage,
               this`failureCandidate
      ensures Found() == ClassifyLine(old(Found()), old(line[..length]))
    {
      hide KindOf;
      var kind := KindOf(line[..length]);
      match kind {
        case Fallback =>
          Observe(Userspace);
          if failureCandidate == Interface {
            failureCandidate := StageNone;
          }
          currentStage, userspaceStarted := Userspace, true;
        case LinkDelete => teardownSeen := true;
        case OtherTeardown => recoveryBlocked := true;
        case Command(_, _, _) => ClassifyCommand(kind);
        case Claim => ClassifyMessage(kind, length > 0);
        case UnknownCommand => ClassifyMessage(kind, length > 0);
        case Message => ClassifyMessage(kind, length > 0);
      }
    }

    method TakeByte(c: char)
      requires Valid()
      modifies this, line
      ensures Valid() && View() == ConsumeByte(old(View()), c)
    {
      hide ClassifyLine;
      if c == '\n' {
        if !discarding {
          Classify();
        }
        length, discarding := 0, false;
      } else if !discarding {
        if c == '\0' || c == '\r' {
          recoveryBlocked := true;
        }
        if length < line.Length {
          line[length] := c;
          length := length + 1;
          assert line[..length] == old(line[..length]) + [c];
        } else {
          recoveryBlocked := true;
          Classify();
          length, discarding := 0, true;
        }
      }
    }

    method Consume(data: string)
      requires Valid()
      modifies this, line
      ensures Valid() && View() == Consumed(old(View()), data)
    {
      hide ConsumeByte;
      for i := 0 to |data|
        invariant Valid() && Consumed(old(View()), data) == Consumed(View(), data[i..])
      {
        assert data[i..][0] == data[i] && data[i..][1..] == data[i + 1..];
        TakeByte(data[i]);
      }
    }

    method Finish()
      requires Valid()
      modifies this
      ensures Valid() && View() == Finished(old(View()))
    {
      hide ClassifyLine;
      if !discarding && length > 0 {
        recoveryBlocked := true;
        Classify();
      }
      length := 0;
    }

    method FailedEarly(child: Child) returns (yes: bool)
      ensures yes == FailedBeforeRoutes(Found(), child)
    {
      yes := child.exited && child.diagnosticsComplete && child.wait.Exited? && child.wait.code != 0
             && child.wait.code != 127
             && interfaceSeen && teardownSeen && !recoveryBlocked
             && Rank(currentStage) >= Rank(Interface) && Rank(currentStage) <= Rank(Mtu);
    }
  }
}
