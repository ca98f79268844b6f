/** The ownership claim: the hooks that tag the tunnel's link with the session's
    token on the way up and check the tag on the way down. */
module QuickConfig {
  import opened Amneziawg
  import opened Text
  import opened DnsConfig
  import opened Config

  const LINK_HOOK_RESERVE: nat := 256

  function UpCommand(token: string): string {
    "ip link set dev %i alias " + LinkAlias(token)
  }

  function DownCommand(token: string): string {
    "grep -Fxq " + LinkAlias(token) + " /sys/class/net/%i/ifalias"
  }

  function ClaimText(token: string): string {
    QuickLine("PreUp", UpCommand(token)) + QuickLine("PreDown", DownCommand(token))
  }

  /** The snapshot a helper takes: room for the claim is kept. */
  function HelperSnapshot(pton: Pton, protocol: string, envelope: Envelope): Result<string> {
    SnapshotOf(pton, protocol, envelope, LINK_HOOK_RESERVE)
  }

  lemma ParsedStays(pton: Pton, data: string)
    requires ParseEnvelope(pton, data).Ok?
    ensures ParseEnvelope(pton, data).value.lineEnd == ScanConfig(pton, data).value.lineEnd <= |data|
  {
    hide ScanConfig;
    ScanStays(pton, data);
  }

  function LinkClaim(pton: Pton, snapshot: string, token: string): Result<string> {
    if !TokenIsValid(token) then Err(InvalidData)
    else
      var envelope := ParseEnvelope(pton, snapshot);
      if envelope.Err? then Err(envelope.error)
      else if |ClaimText(token)| >= LINK_HOOK_RESERVE then Err(TooLarge)
      else
        ParsedStays(pton, snapshot);
        var claimed := Spliced(snapshot, envelope.value.lineEnd, ClaimText(token));
        if |claimed| > MAX_CONFIG_SIZE then Err(TooLarge) else Ok(claimed)
  }

  method AddLinkClaim(pton: Pton, snapshot: string, token: string) returns (r: Result<string>)
    ensures r == LinkClaim(pton, snapshot, token)
  {
    hide ParseEnvelope, TokenIsValid;
    if !TokenIsValid(token) {
      return Err(InvalidData);
    }
    var envelope := ParseConfigEnvelope(pton, snapshot);
    if envelope.Err? {
      return Err(envelope.error);
    }
    var insertion := envelope.value.lineEnd;
    var claim := ClaimText(token);
    if |claim| >= LINK_HOOK_RESERVE {
      return Err(TooLarge);
    }
    ParsedStays(pton, snapshot);
    var separator := if insertion > 0 && snapshot[insertion - 1] != '\n' then 1 else 0;
    if |snapshot| > MAX_CONFIG_SIZE - separator || |claim| > MAX_CONFIG_SIZE - separator - |snapshot| {
      return Err(TooLarge);
    }
    var claimed := Splice(snapshot, insertion, claim);
    r := Ok(claimed);
  }

  // ------------------------------------------------------------------------
  // Properties
  // ------------------------------------------------------------------------

  lemma ClaimLength(token: string)
    requires |token| == LINK_TOKEN_LENGTH
    ensures |ClaimText(token)| + 1 < LINK_HOOK_RESERVE
  {
    var alias := LinkAlias(token);
    assert |alias| == 47;
    assert |UpCommand(token)| == 25 + 47;
    assert |DownCommand(token)| == 10 + 47 + 26;
  }

  lemma TokenLength(token: string)
    requires TokenIsValid(token)
    ensures |token| == LINK_TOKEN_LENGTH
  {
  }

  /** A claim always fits: whatever the helper's snapshot, every valid token can be
      added to it. */
  lemma ClaimAlwaysFits(pton: Pton, config: string, protocol: string, token: string)
    requires ParseEnvelope(pton, config).Ok? && HelperSnapshot(pton, protocol, ParseEnvelope(pton, config).value).Ok?
    requires TokenIsValid(token)
    ensures var snapshot := HelperSnapshot(pton, protocol, ParseEnvelope(pton, config).value).value;
            LinkClaim(pton, snapshot, token).Ok? && |LinkClaim(pton, snapshot, token).value| <= MAX_CONFIG_SIZE
  {
    hide ParseEnvelope, SnapshotOf, ClaimText, TokenIsValid;
    assert |token| == LINK_TOKEN_LENGTH by {
      TokenLength(token);
    }
    ClaimLength(token);
    SpliceFixpoint(pton, config, protocol, LINK_HOOK_RESERVE);
    var snapshot := HelperSnapshot(pton, protocol, ParseEnvelope(pton, config).value).value;
    ParsedStays(pton, snapshot);
    assert |Spliced(snapshot, ParseEnvelope(pton, snapshot).value.lineEnd, ClaimText(token))| <= |snapshot| + 1
             + |ClaimText(token)|;
  }

  /** Where the claim was put in, and how long it is with its separator. */
  function ClaimStart(pton: Pton, snapshot: string): nat
    requires ParseEnvelope(pton, snapshot).Ok?
  {
    ParseEnvelope(pton, snapshot).value.lineEnd
  }

  function ClaimSpan(pton: Pton, snapshot: string, token: string): nat
    requires ParseEnvelope(pton, snapshot).Ok?
  {
    ParsedStays(pton, snapshot);
    |Separator(snapshot, ClaimStart(pton, snapshot))| + |ClaimText(token)|
  }

  /** Deleting the inserted span gives back the snapshot. */
  lemma ClaimIsInsertion(pton: Pton, snapshot: string, token: string)
    requires LinkClaim(pton, snapshot, token).Ok?
    ensures var claimed := LinkClaim(pton, snapshot, token).value;
            var start, span := ClaimStart(pton, snapshot), ClaimSpan(pton, snapshot, token);
            start + span <= |claimed| && claimed[..start] + claimed[start + span..] == snapshot
  {
    hide ParseEnvelope, ClaimText;
    ParsedStays(pton, snapshot);
    var claimed := LinkClaim(pton, snapshot, token).value;
    var start, span := ClaimStart(pton, snapshot), ClaimSpan(pton, snapshot, token);
    assert claimed[..start] == snapshot[..start] && claimed[start + span..] == snapshot[start..];
  }

  lemma CommandsAreValues(token: string)
    requires TokenIsValid(token)
    ensures ValueOk(UpCommand(token)) && ValueOk(DownCommand(token))
  {
    var up, down := UpCommand(token), DownCommand(token);
    assert up[|up| - 1] == token[|token| - 1];
    assert IsClean(LinkAlias(token));
    SolidLeft(up);
    SolidRight(up);
    SolidLeft(down);
    SolidRight(down);
  }

  /** A rendered hook is one, and stops an open interface section. */
  lemma RenderedHookStops(pton: Pton, st: Scan, name: string, value: string)
    requires IsUnsafeDirective(name) && ValueOk(value) && st.section == InInterface
    ensures StepLine(pton, st, QuickLine(name, value)) == Err(UnsafeDirective)
  {
    hide Find, Trim, HasControl, TokenIsSafe, Stripped, ValueOk, StepLine, IsUnsafeDirective, IsPlainName;
    HookNameIsPlain(name);
    QuickLineStripped(name, value);
    QuickBodyTrims(name, value);
    QuickParts(name, value);
    HookStops(pton, st, QuickLine(name, value));
  }

  lemma HookNameIsPlain(name: string)
    requires IsUnsafeDirective(name)
    ensures IsPlainName(name)
  {
    forall i | 0 <= i < |name| ensures IsAlnum(name[i]) {
      assert 'a' <= Lower(name[i]) <= 'z';
    }
  }

  lemma ClaimLines(token: string)
    requires TokenIsValid(token)
    ensures Lines(ClaimText(token)) == [QuickLine("PreUp", UpCommand(token)), QuickLine("PreDown", DownCommand(token))]
    ensures EndsLine(ClaimText(token)) && NulFree(ClaimText(token))
  {
    hide Lines, ValueOk, UpCommand, DownCommand, TokenIsValid;
    CommandsAreValues(token);
    assert IsPlainName("PreUp") && IsPlainName("PreDown");
    QuickLineIsOne("PreUp", UpCommand(token));
    QuickLineIsOne("PreDown", DownCommand(token));
    LinesConcat(QuickLine("PreUp", UpCommand(token)), QuickLine("PreDown", DownCommand(token)));
    DirectiveNulFree("PreUp", UpCommand(token));
    DirectiveNulFree("PreDown", DownCommand(token));
  }

  /** A claimed configuration is never accepted again, so nothing is claimed
      twice. */
  lemma ClaimedIsRejected(pton: Pton, snapshot: string, token: string)
    requires LinkClaim(pton, snapshot, token).Ok?
    ensures ParseEnvelope(pton, LinkClaim(pton, snapshot, token).value) == Err(UnsafeDirective)
    ensures forall other :: TokenIsValid(other) ==>
              LinkClaim(pton, LinkClaim(pton, snapshot, token).value, other) == Err(UnsafeDirective)
  {
    hide StepLine, Lines, HasNul, NulFree, ClaimText, TokenIsValid, UpCommand, DownCommand, ValueOk, QuickLine;
    ParsedStays(pton, snapshot);
    ScanConfigEnds(pton, snapshot);
    var e := ScanConfig(pton, snapshot).value.lineEnd;
    var text, claimed := ClaimText(token), LinkClaim(pton, snapshot, token).value;
    ClaimLines(token);
    CommandsAreValues(token);
    var mid := SplicedScan(pton, snapshot, text);
    assert SpanEqual("PreUp", "PreUp");
    RenderedHookStops(pton, mid, "PreUp", UpCommand(token));
    NulFreeIff(snapshot);
    NulFreeIff(claimed);
    SplicedNulFree(snapshot, e, text);
    assert ScanConfig(pton, claimed) == Err(UnsafeDirective);
  }
}
