/** The session journal: its canonical text form, the decimal parser it rests on
    and the classification of a journal against an observed link. */
module RuntimeJournal {
  import opened Amneziawg
  import opened Text
  import opened LinkIdentity

  const MAX_RUNTIME_MARKER_SIZE: nat := 256
  const FIREWALL_ALL: nat := 31

  datatype JournalState = Activating | Active | CleanupRequired | CleanupUnconfirmed | CleanupComplete | FirewallPending
  datatype DnsBackend = NoBackend | Resolved | Resolvconf
  datatype DnsState = DnsAbsent | DnsApplied | DnsUnknown

  datatype RuntimeMarker = RuntimeMarker(
    token: string, ifindex: nat, backend: DnsBackend, state: JournalState,
    dnsState: DnsState, wasActive: bool, firewallScope: nat)

  datatype RuntimeState =
    | Inactive | SessionActive | RecoveryRequired | ManualIntervention | Conflict | Unknown | FirewallVerification

  // ------------------------------------------------------------------------
  // Interface indices
  // ------------------------------------------------------------------------

  lemma TooLargePrefix(s: string, i: nat)
    requires AllDigits(s) && i < |s| && DecimalValue(s[..i + 1]) > UINT_MAX
    ensures DecimalValue(s) > UINT_MAX
  {
    DecimalValueMonotone(s, i + 1);
  }

  /** The digit loop. Its overflow test divides instead of multiplying, and is
      exact: a number is accepted if and only if it is a positive 32-bit one. */
  method DigitsParse(text: string) returns (r: Option<nat>)
    ensures r.Some? <==> AllDigits(text) && 0 < DecimalValue(text) <= UINT_MAX
    ensures r.Some? ==> r.value == DecimalValue(text)
  {
    var value := 0;
    for i := 0 to |text|
      invariant AllDigits(text[..i])
      invariant value == DecimalValue(text[..i]) <= UINT_MAX
    {
      if !IsDigit(text[i]) {
        return None;
      }
      var digit := DigitValue(text[i]);
      DecimalSnoc(text, i);
      if value > (UINT_MAX - digit) / 10 {
        if AllDigits(text) {
          TooLargePrefix(text, i);
        }
        return None;
      }
      value := value * 10 + digit;
    }
    assert text[..|text|] == text;
    return if value == 0 then None else Some(value);
  }

  /** Parses an interface index surrounded by any white space. */
  method IfindexParse(data: string) returns (r: Option<nat>)
    ensures r.Some? <==> AllDigits(Trim(data)) && 0 < DecimalValue(Trim(data)) <= UINT_MAX
    ensures r.Some? ==> r.value == DecimalValue(Trim(data))
  {
    var start, end := TrimSpan(data);
    if start == end {
      assert Trim(data) == [];
      return None;
    }
    r := DigitsParse(data[start..end]);
  }

  // ------------------------------------------------------------------------
  // The journal text
  // ------------------------------------------------------------------------

  function StateName(s: JournalState): (r: string)
    ensures 0 < |r| <= 29 && '\n' !in r
  {
    match s
    case Activating => "activating"
    case Active => "active"
    case CleanupRequired => "cleanup-required"
    case CleanupUnconfirmed => "cleanup-unconfirmed"
    case CleanupComplete => "cleanup-complete"
    case FirewallPending => "firewall-verification-pending"
  }

  function BackendName(b: DnsBackend): (r: string)
    ensures 0 < |r| <= 10 && '\n' !in r
  {
    match b
    case NoBackend => "none"
    case Resolved => "resolved"
    case Resolvconf => "resolvconf"
  }

  function DnsStateName(d: DnsState): (r: string)
    ensures 0 < |r| <= 7 && '\n' !in r
  {
    match d
    case DnsAbsent => "absent"
    case DnsApplied => "applied"
    case DnsUnknown => "unknown"
  }

  predicate MarkerFieldsAreValid(m: RuntimeMarker) {
    && m.firewallScope <= FIREWALL_ALL
    && TokenIsValid(m.token)
    && (m.backend == NoBackend ==> m.dnsState == DnsAbsent)
    && (m.state == Activating ==> !m.wasActive)
    && (m.state == Active ==> m.ifindex != 0 && m.wasActive && (m.backend != NoBackend ==> m.dnsState == DnsApplied))
    && (m.state == CleanupComplete || m.state == FirewallPending ==> !m.wasActive && m.dnsState == DnsAbsent)
  }

  /** A marker as the source's structure can hold one: 32-bit numbers. */
  predicate MarkerInRange(m: RuntimeMarker) {
    m.ifindex <= UINT_MAX && m.firewallScope <= UINT_MAX
  }

  function Line(key: string, value: string): string {
    key + value + "\n"
  }

  const MARKER_KEYS: seq<string> :=
    ["state=", "token=", "ifindex=", "dns=", "was-active=", "dns-state=", "firewall-scope="]

  function MarkerValues(m: RuntimeMarker): seq<string> {
    [StateName(m.state), m.token, Decimal(m.ifindex), BackendName(m.backend),
     if m.wasActive then "1" else "0", DnsStateName(m.dnsState), Decimal(m.firewallScope)]
  }

  function Lines(keys: seq<string>, values: seq<string>): string
    requires |keys| == |values|
  {
    if keys == [] then "" else Line(keys[0], values[0]) + Lines(keys[1..], values[1..])
  }

  function MarkerText(m: RuntimeMarker): string {
    Lines(MARKER_KEYS, MarkerValues(m))
  }

  /** Serialization refuses invalid fields, and only those: the bounded buffer is
      never what refuses a marker. */
  method MarkerSerialize(m: RuntimeMarker) returns (r: Option<string>)
    requires MarkerInRange(m)
    ensures r.Some? <==> MarkerFieldsAreValid(m)
    ensures r.Some? ==> r.value == MarkerText(m) && |r.value| < MAX_RUNTIME_MARKER_SIZE
  {
    if !MarkerFieldsAreValid(m) {
      return None;
    }
    var text := MarkerText(m);
    MarkerTextFits(m);
    if |text| >= MAX_RUNTIME_MARKER_SIZE {
      return None;
    }
    return Some(text);
  }

  lemma LinesLength(keys: seq<string>, values: seq<string>, i: nat)
    requires i < |keys| == |values|
    ensures |Lines(keys[i..], values[i..])| == |keys[i]| + |values[i]| + 1 + |Lines(keys[i + 1..], values[i + 1..])|
  {
    assert keys[i..][1..] == keys[i + 1..] && values[i..][1..] == values[i + 1..];
  }

  lemma SevenLinesFit(keys: seq<string>, values: seq<string>)
    requires |keys| == |values| == 7
    requires forall i | 0 <= i < 7 :: |keys[i]| <= 15
    requires |values[0]| <= 29 && |values[1]| <= 32 && |values[2]| <= 10 && |values[3]| <= 10
    requires |values[4]| <= 1 && |values[5]| <= 7 && |values[6]| <= 2
    ensures |Lines(keys, values)| <= 7 * 16 + 91
  {
    LinesLength(keys, values, 6);
    LinesLength(keys, values, 5);
    LinesLength(keys, values, 4);
    LinesLength(keys, values, 3);
    LinesLength(keys, values, 2);
    LinesLength(keys, values, 1);
    LinesLength(keys, values, 0);
    assert keys[0..] == keys && values[0..] == values;
  }

  lemma MarkerTextFits(m: RuntimeMarker)
    requires MarkerInRange(m) && MarkerFieldsAreValid(m)
    ensures |MarkerText(m)| < MAX_RUNTIME_MARKER_SIZE
  {
    assert Power10(10) == 10_000_000_000 by {
      assert Power10(2) == 100 && Power10(4) == 10_000 && Power10(6) == 1_000_000 && Power10(8) == 100_000_000;
    }
    DecimalLength(m.ifindex, 10, 10_000_000_000);
    DecimalLength(m.firewallScope, 2, 100);
    SevenLinesFit(MARKER_KEYS, MarkerValues(m));
  }

  // ------------------------------------------------------------------------
  // Parsing
  // ------------------------------------------------------------------------

  /** The value of one `key=value` line at the head of `data` and what follows. */
  function TakeLine(data: string, key: string): Option<(string, string)> {
    if key <= data && '\n' in data[|key|..] then
      var rest := data[|key|..];
      var n := IndexOf(rest, '\n');
      Some((rest[..n], rest[n + 1..]))
    else None
  }

  lemma TakenLine(data: string, key: string)
    requires TakeLine(data, key).Some?
    ensures var (value, rest) := TakeLine(data, key).value;
            data == Line(key, value) + rest && '\n' !in value
  {
    var tail := data[|key|..];
    var n := IndexOf(tail, '\n');
    assert data == key + tail;
    assert tail == tail[..n] + "\n" + tail[n + 1..];
  }

  lemma LineIsTaken(key: string, value: string, rest: string)
    requires '\n' !in value
    ensures TakeLine(Line(key, value) + rest, key) == Some((value, rest))
  {
    var data := Line(key, value) + rest;
    var tail := value + "\n" + rest;
    assert data == key + tail;
    assert data[|key|..] == tail;
    assert tail[|value|] == '\n' && tail[..|value|] == value;
    var n := IndexOf(tail, '\n');
    assert n == |value|;
    assert tail[n + 1..] == rest;
  }

  function StateNamed(s: string): (r: Option<JournalState>)
    ensures r.Some? ==> StateName(r.value) == s
    ensures r.None? ==> forall v :: StateName(v) != s
  {
    if s == "activating" then Some(Activating)
    else if s == "active" then Some(Active)
    else if s == "cleanup-required" then Some(CleanupRequired)
    else if s == "cleanup-unconfirmed" then Some(CleanupUnconfirmed)
    else if s == "cleanup-complete" then Some(CleanupComplete)
    else if s == "firewall-verification-pending" then Some(FirewallPending)
    else None
  }

  function BackendNamed(s: string): (r: Option<DnsBackend>)
    ensures r.Some? ==> BackendName(r.value) == s
    ensures r.None? ==> forall v :: BackendName(v) != s
  {
    if s == "none" then Some(NoBackend)
    else if s == "resolved" then Some(Resolved)
    else if s == "resolvconf" then Some(Resolvconf)
    else None
  }

  function DnsStateNamed(s: string): (r: Option<DnsState>)
    ensures r.Some? ==> DnsStateName(r.value) == s
    ensures r.None? ==> forall v :: DnsStateName(v) != s
  {
    if s == "absent" then Some(DnsAbsent)
    else if s == "applied" then Some(DnsApplied)
    else if s == "unknown" then Some(DnsUnknown)
    else None
  }

  function ActiveNamed(s: string): (r: Option<bool>)
    ensures r.Some? ==> s == (if r.value then "1" else "0")
    ensures r.None? ==> s != "0" && s != "1"
  {
    if s == "0" then Some(false) else if s == "1" then Some(true) else None
  }

  /** The interface index of a journal: zero, or a canonical 32-bit number. */
  function JournalIfindex(value: string): Option<nat> {
    if CanonicalDecimal(value) && DecimalValue(value) <= UINT_MAX then Some(DecimalValue(value)) else None
  }

  lemma JournalIfindexIff(value: string, n: nat)
    ensures JournalIfindex(value) == Some(n) <==> value == Decimal(n) && n <= UINT_MAX
  {
    DecimalCanonical(n);
    if CanonicalDecimal(value) {
      CanonicalDecimalUnique(value);
    }
  }

  predicate NewlineFree(values: seq<string>) {
    forall i | 0 <= i < |values| :: '\n' !in values[i]
  }

  /** The values of the given lines, which must make up the whole text. */
  function TakeLines(data: string, keys: seq<string>): (r: Option<seq<string>>)
    ensures r.Some? ==> |r.value| == |keys|
  {
    if keys == [] then (if data == "" then Some([]) else None)
    else
      var line :- TakeLine(data, keys[0]);
      Prepend([line.0], TakeLines(line.1, keys[1..]))
  }

  lemma {:induction false} TakenLines(data: string, keys: seq<string>)
    requires TakeLines(data, keys).Some?
    ensures data == Lines(keys, TakeLines(data, keys).value) && NewlineFree(TakeLines(data, keys).value)
  {
    if keys != [] {
      var line := TakeLine(data, keys[0]).value;
      TakenLine(data, keys[0]);
      TakenLines(line.1, keys[1..]);
      var values := TakeLines(data, keys).value;
      assert values[1..] == TakeLines(line.1, keys[1..]).value && values[0] == line.0;
    }
  }

  lemma {:induction false} LinesAreTaken(keys: seq<string>, values: seq<string>)
    requires |keys| == |values| && NewlineFree(values)
    ensures TakeLines(Lines(keys, values), keys) == Some(values)
  {
    if keys != [] {
      var rest := Lines(keys[1..], values[1..]);
      LineIsTaken(keys[0], values[0], rest);
      LinesAreTaken(keys[1..], values[1..]);
      assert [values[0]] + values[1..] == values;
    }
  }

  /** At most two digits, without a leading zero. */
  function ScopeNamed(value: string): Option<nat> {
    if 0 < |value| <= 2 && CanonicalDecimal(value) then Some(DecimalValue(value)) else None
  }

  lemma {:induction false} ShortDecimal(s: string)
    requires AllDigits(s)
    ensures DecimalValue(s) < Power10(|s|)
  {
    if s != [] {
      ShortDecimal(s[..|s| - 1]);
    }
  }

  lemma ScopeNamedIff(value: string, n: nat)
    ensures ScopeNamed(value) == Some(n) <==> value == Decimal(n) && n < 100
  {
    assert Power10(0) == 1 && Power10(1) == 10 && Power10(2) == 100;
    if ScopeNamed(value) == Some(n) {
      ShortDecimal(value);
      CanonicalDecimalUnique(value);
    }
    if value == Decimal(n) && n < 100 {
      DecimalCanonical(n);
      DecimalLength(n, 2, 100);
    }
  }

  function FieldsNamed(values: seq<string>): Option<RuntimeMarker>
    requires |values| == |MARKER_KEYS|
  {
    var state :- StateNamed(values[0]);
    var ifindex :- JournalIfindex(values[2]);
    var backend :- BackendNamed(values[3]);
    var active :- ActiveNamed(values[4]);
    var dnsState :- DnsStateNamed(values[5]);
    var scope :- ScopeNamed(values[6]);
    Some(RuntimeMarker(values[1], ifindex, backend, state, dnsState, active, scope))
  }

  /** Each field reads as the one of `m`. */
  predicate EachNames(values: seq<string>, m: RuntimeMarker)
    requires |values| == |MARKER_KEYS|
  {
    && StateNamed(values[0]) == Some(m.state)
    && values[1] == m.token
    && JournalIfindex(values[2]) == Some(m.ifindex)
    && BackendNamed(values[3]) == Some(m.backend)
    && ActiveNamed(values[4]) == Some(m.wasActive)
    && DnsStateNamed(values[5]) == Some(m.dnsState)
    && ScopeNamed(values[6]) == Some(m.firewallScope)
  }

  lemma FieldByField(values: seq<string>, m: RuntimeMarker)
    requires |values| == |MARKER_KEYS|
    ensures FieldsNamed(values) == Some(m) <==> EachNames(values, m)
  {
    hide StateNamed, JournalIfindex, BackendNamed, ActiveNamed, DnsStateNamed, ScopeNamed;
  }

  lemma StateNamedIff(value: string, state: JournalState)
    ensures StateNamed(value) == Some(state) <==> value == StateName(state)
  {
  }

  lemma BackendNamedIff(value: string, backend: DnsBackend)
    ensures BackendNamed(value) == Some(backend) <==> value == BackendName(backend)
  {
  }

  lemma DnsStateNamedIff(value: string, dnsState: DnsState)
    ensures DnsStateNamed(value) == Some(dnsState) <==> value == DnsStateName(dnsState)
  {
  }

  lemma ActiveNamedIff(value: string, wasActive: bool)
    ensures ActiveNamed(value) == Some(wasActive) <==> value == if wasActive then "1" else "0"
  {
  }

  lemma FieldsNamedIff(values: seq<string>, m: RuntimeMarker)
    requires |values| == |MARKER_KEYS|
    ensures FieldsNamed(values) == Some(m)
       <==> values == MarkerValues(m) && m.ifindex <= UINT_MAX && m.firewallScope < 100
  {
    hide FieldsNamed, StateNamed, BackendNamed, ActiveNamed, DnsStateNamed, StateName, BackendName, DnsStateName,
         JournalIfindex, ScopeNamed, Decimal;
    FieldByField(values, m);
    StateNamedIff(values[0], m.state);
    JournalIfindexIff(values[2], m.ifindex);
    BackendNamedIff(values[3], m.backend);
    ActiveNamedIff(values[4], m.wasActive);
    DnsStateNamedIff(values[5], m.dnsState);
    ScopeNamedIff(values[6], m.firewallScope);
  }

  function MarkerWithKeys(data: string, keys: seq<string>): Option<RuntimeMarker>
    requires |keys| == |MARKER_KEYS|
  {
    var values :- TakeLines(data, keys);
    var fields :- FieldsNamed(values);
    if MarkerFieldsAreValid(fields) then Some(fields) else None
  }

  /** The journal a text denotes, if its fields are valid together. */
  function MarkerOf(data: string): Option<RuntimeMarker> {
    MarkerWithKeys(data, MARKER_KEYS)
  }

  lemma ValuesAreNewlineFree(m: RuntimeMarker)
    requires MarkerFieldsAreValid(m)
    ensures NewlineFree(MarkerValues(m))
  {
  }

  lemma RoundTripWithKeys(data: string, keys: seq<string>, m: RuntimeMarker)
    requires |keys| == |MARKER_KEYS|
    ensures MarkerWithKeys(data, keys) == Some(m)
       <==> MarkerFieldsAreValid(m) && MarkerInRange(m) && Lines(keys, MarkerValues(m)) == data
  {
    if MarkerWithKeys(data, keys) == Some(m) {
      TakenLines(data, keys);
      FieldsNamedIff(TakeLines(data, keys).value, m);
    }
    if MarkerFieldsAreValid(m) && MarkerInRange(m) && Lines(keys, MarkerValues(m)) == data {
      ValuesAreNewlineFree(m);
      LinesAreTaken(keys, MarkerValues(m));
      FieldsNamedIff(MarkerValues(m), m);
    }
  }

  /** The journal codec: the accepted texts are exactly the canonical texts of the
      valid markers, and no two markers share one. */
  lemma JournalRoundTrip(data: string, m: RuntimeMarker)
    ensures MarkerOf(data) == Some(m) <==> MarkerFieldsAreValid(m) && MarkerInRange(m) && MarkerText(m) == data
  {
    RoundTripWithKeys(data, MARKER_KEYS, m);
  }

  function Prepend(values: seq<string>, r: Option<seq<string>>): Option<seq<string>> {
    if r.Some? then Some(values + r.value) else None
  }

  lemma PrependSnoc(values: seq<string>, value: string, r: Option<seq<string>>)
    ensures Prepend(values, Prepend([value], r)) == Prepend(values + [value], r)
    ensures Prepend([], r) == r
  {
    if r.Some? {
      assert values + ([value] + r.value) == values + [value] + r.value;
      assert [] + r.value == r.value;
    }
  }

  /** Walks the remaining text, line by line. */
  method SplitLines(data: string, keys: seq<string>) returns (r: Option<seq<string>>)
    ensures r == TakeLines(data, keys)
  {
    var values, rest := [], data;
    PrependSnoc([], "", TakeLines(data, keys));
    assert keys[0..] == keys;
    for i := 0 to |keys|
      invariant |values| == i
      invariant TakeLines(data, keys) == Prepend(values, TakeLines(rest, keys[i..]))
    {
      assert keys[i..][0] == keys[i] && keys[i..][1..] == keys[i + 1..];
      var line := TakeLine(rest, keys[i]);
      if line.None? {
        return None;
      }
      PrependSnoc(values, line.value.0, TakeLines(line.value.1, keys[i + 1..]));
      values, rest := values + [line.value.0], line.value.1;
    }
    assert values + [] == values;
    return if rest == "" then Some(values) else None;
  }

  /** Decides a text as `MarkerOf` does. */
  method MarkerParse(data: string) returns (r: Option<RuntimeMarker>)
    ensures r == MarkerOf(data)
  {
    var values := SplitLines(data, MARKER_KEYS);
    if values.None? {
      return None;
    }
    r := DecodeFields(values.value);
  }

  method DecodeFields(values: seq<string>) returns (r: Option<RuntimeMarker>)
    requires |values| == |MARKER_KEYS|
    ensures r == match FieldsNamed(values) case None => None
                 case Some(m) => if MarkerFieldsAreValid(m) then Some(m) else None
  {
    var state := StateNamed(values[0]);
    if state.None? || !TokenIsValid(values[1]) {
      return None;
    }
    var ifindex := ParseJournalIfindex(values[2]);
    var backend := BackendNamed(values[3]);
    var active := ActiveNamed(values[4]);
    var dnsState := DnsStateNamed(values[5]);
    var scope := ScopeNamed(values[6]);
    if ifindex.None? || backend.None? || active.None? || dnsState.None? || scope.None? {
      return None;
    }
    var parsed := RuntimeMarker(values[1], ifindex.value, backend.value, state.value, dnsState.value,
                                active.value, scope.value);
    return if MarkerFieldsAreValid(parsed) then Some(parsed) else None;
  }

  /** A journal's index is stricter than the shared parser: no white space and no
      leading zero, but zero itself. */
  method ParseJournalIfindex(value: string) returns (r: Option<nat>)
    ensures r == JournalIfindex(value)
  {
    if value == "" {
      return None;
    }
    if value == "0" {
      assert DecimalValue(value[..0]) == 0;
      return Some(0);
    }
    if value[0] == '0' || !AllDigits(value) {
      return None;
    }
    assert TrimLeft(value) == value && TrimRight(value) == value;
    CanonicalDecimalUnique(value);
    r := IfindexParse(value);
  }

  // ------------------------------------------------------------------------
  // Classification
  // ------------------------------------------------------------------------

  function Classify(markerExists: bool, marker: Option<RuntimeMarker>,
                    observation: Option<LinkObservation>): RuntimeState {
    if !markerExists then
      if observation.Some? && observation.value.namedExists then Conflict else Inactive
    else if marker.None? || observation.None? then ManualIntervention
    else ClassifyMarker(marker.value, observation.value)
  }

  function ClassifyMarker(m: RuntimeMarker, o: LinkObservation): RuntimeState {
    if m.state == CleanupUnconfirmed || (m.backend == Resolved && m.dnsState == DnsUnknown) then ManualIntervention
    else if o.tokenMatches > 1 then ManualIntervention
    else if o.tokenMatches == 0 then
      if o.namedExists then Conflict
      else if m.state == FirewallPending then
        if m.dnsState == DnsAbsent && !m.wasActive then FirewallVerification else ManualIntervention
      else if m.state == CleanupComplete then RecoveryRequired
      else ManualIntervention
    else if (o.namedExists && o.namedIfindex != o.tokenIfindex) || (m.ifindex != 0 && m.ifindex != o.tokenIfindex) then
      Conflict
    else if !o.tokenHasExpectedName then ManualIntervention
    else if m.state == CleanupComplete || m.state == FirewallPending then Conflict
    else if m.state != Active || m.ifindex == 0 then RecoveryRequired
    else SessionActive
  }

  /** The classification does not look at what two dumps of one table may disagree on. */
  lemma ClassifySameObservation(markerExists: bool, marker: Option<RuntimeMarker>, a: LinkObservation,
                                b: LinkObservation)
    requires SameObservation(a, b)
    ensures Classify(markerExists, marker, Some(a)) == Classify(markerExists, marker, Some(b))
  {
  }

  lemma MatchesAreHolders(records: seq<LinkRecord>, t: LinkTable, name: string, token: string)
    requires IsDump(records, t)
    ensures Observation(records, name, Some(token)).tokenMatches == |AliasHolders(t, LinkAlias(token))|
  {
    DumpCountsHolders(records, t, LinkAlias(token));
  }

  /** What one link with the token shows of itself. */
  lemma SoleHolderObserved(records: seq<LinkRecord>, t: LinkTable, name: string, token: string, i: nat)
    requires TableValid(t) && IsDump(records, t) && AliasHolders(t, LinkAlias(token)) == {i}
    ensures i in t
    ensures var o := Observation(records, name, Some(token));
            && o.tokenIfindex == i && o.tokenHasExpectedName == (t[i].ifname == name)
            && (t[i].ifname == name ==> o.namedExists && o.namedIfindex == i)
  {
    hide AliasMatches;
    assert i in AliasHolders(t, LinkAlias(token));
    SoleHolder(records, t, LinkAlias(token), i);
    if t[i].ifname == name {
      var k :| 0 <= k < |records| && records[k].ifindex == i;
      var last := LastNamed(records, name).value;
      assert t[records[last].ifindex].ifname == t[i].ifname;
    }
  }

  /** A session is shown as active exactly when its journal says so and one link,
      the one of that index, holds both the name and the token. */
  lemma ActiveMeansOwned(m: RuntimeMarker, records: seq<LinkRecord>, t: LinkTable, name: string)
    requires TableValid(t) && IsDump(records, t) && MarkerFieldsAreValid(m)
    ensures ClassifyMarker(m, Observation(records, name, Some(m.token))) == SessionActive
       <==> && m.state == Active
            && m.ifindex in t && t[m.ifindex].ifname == name
            && AliasHolders(t, LinkAlias(m.token)) == {m.ifindex}
  {
    hide TokenIsValid, Observation, IsDump, LinkAlias;
    var alias := LinkAlias(m.token);
    MatchesAreHolders(records, t, name, m.token);
    if |AliasHolders(t, alias)| == 1 {
      var i :| i in AliasHolders(t, alias);
      assert AliasHolders(t, alias) == {i} by {
        assert |AliasHolders(t, alias) - {i}| == 0;
      }
      SoleHolderObserved(records, t, name, m.token, i);
    }
  }

  // ------------------------------------------------------------------------
  // The helper's view of an owned link
  // ------------------------------------------------------------------------

  datatype OwnedLinkState = LinkUnknown | LinkConflict | LinkAbsent | LinkPresent

  function OwnedLink(marker: Option<RuntimeMarker>, observation: Option<LinkObservation>): OwnedLinkState {
    if marker.None? || observation.None? then LinkUnknown
    else
      var o, m := observation.value, marker.value;
      if o.tokenMatches > 1 then LinkUnknown
      else if o.tokenMatches == 0 then (if o.namedExists then LinkConflict else LinkAbsent)
      else if !o.tokenHasExpectedName || (o.namedExists && o.namedIfindex != o.tokenIfindex)
              || (m.ifindex != 0 && m.ifindex != o.tokenIfindex) then LinkConflict
      else LinkPresent
  }

  /** What a link guard accepts is what the helper calls its own link. */
  lemma GuardedLinkIsPresent(records: seq<LinkRecord>, t: LinkTable, m: RuntimeMarker, name: string, ifindex: nat)
    requires TableValid(t) && IsDump(records, t)
    requires SnapshotAccepted(records, LinkRecord(ifindex, name, Some(LinkAlias(m.token))))
    requires m.ifindex == 0 || m.ifindex == ifindex
    ensures OwnedLink(Some(m), Some(Observation(records, name, Some(m.token)))) == LinkPresent
  {
    GuardMeansOneMatch(records, t, name, m.token, ifindex);
  }
}
