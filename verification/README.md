# AmneziaWG in the network sidebar: a verified model

The sidebar shows and controls AmneziaWG tunnels. An unprivileged client watches
session journals and the kernel's link table, keeps a cache of what it saw, and
sends requests over D-Bus; a privileged helper stores profiles, starts `awg-quick`
and recovers from failed starts. This project models the parts of that machinery
whose correctness is not visible in any one function, and proves it.

**Runtime observation cache.** `LinkIdentity` holds the indexed link snapshot, the
event filter that decides which kernel notifications may be ignored, and the link
guard. `RuntimeJournal` holds the journal codec and the classification of a session.
`RuntimeSource` is the runtime source's state as a value, `RuntimeCache` the object
that updates it in place, and `RuntimeSystem` everything that runs beside it: link
table and notification queue, journal directory, worker thread, timers, re-entrant
callers. `RuntimeSafety` proves what holds after any run of that system;
`RuntimeRefinement` ties the object's callbacks and public operations to the system's
steps.

**Formats.** `DnsConfig` is the DNS syntax and its binary payload, `Config` the
configuration scanner and the splicing of its findings into another configuration,
`QuickConfig` the ownership claim put into such a snapshot, `ProfileReport` the
tab-separated report, and `QuickDiagnostics` the streaming recogniser of `awg-quick`
output.

**Ownership and transactions.** `Backend` is one call with its racing deadline,
cancellation and reply, `Inventory` the coalescing refresh queue, `Controller` the
activities and confirmations, and `HelperProfiles` the file-replacement transaction
whose every system call may fail.

Code that updates an object in place is a class. Each of its methods states its
whole new state as a function of the old one (`View() == F(old(View()))`), and the
properties over runs are proved about those functions. Loops over bytes are methods
proved against recursive definitions, and what the definitions mean is proved
separately. The handlers of `RuntimeCache`, `BackendCall`, `InventoryObject`,
`ControllerObject`, `ConfigScanner` and `Diagnostics` run straight through; their
contracts tie them to the functions the theorems are about, and the table lists the
theorems and the loops. Names, tokens, decimal text and purposes, which all share, are in
`Amneziawg`, `Text` and `Refresh`, and the ordered lists of names in `Names`.

Three results are worth reading as findings about the code:

- A controller notice shown just before an activity ends (import failed, import
  cancelled, unusable file, chooser declined) may call back into the controller. If
  the import moves on while the notice is shown, the activity is ended although its
  call has been sent. `ActivityOwnership` shows that a run keeps ownership if and
  only if this never happens in it, and `TwoCallsAreReachable` gives a run.
- `queue_refresh` reads the clock once to compare deadlines and again to arm the
  timer, so an armed timer can move later: exactly when more time passes in between
  than the new refresh was wanted earlier. `ArmedTimerMovesLater` proves this for
  every step of every run, and `ClockSlipMovesTimer` gives a run.
- Profile reports are not canonical, as leading zeros are read. `CanonicalExactly`
  states which texts are the encoding of what they decode to.

`dafny verify dfyconfig.toml` checks everything, with Dafny's default options.

## Model

| member | source | states |
|---|---|---|
| LinkIdentity.LinkSnapshot.Append | src/amneziawg/link_identity.c:286-313 | a dump's record is kept unless the limit of 65536 is reached, and both indexes go on describing the list: last record per name, first record and count per alias |
| LinkIdentity.LinkSnapshot.Observe | src/amneziawg/link_identity.c:345-391 | the indexed lookup answers what a linear search does: the last record with the name, the number of records with the alias and the first of them; it refuses exactly invalid names and tokens |
| LinkIdentity.AliasMatchesCounts | src/amneziawg/link_identity.c:298-311 | the number of matches is the number of distinct links carrying the alias |
| LinkIdentity.ObservationFromMatching | src/amneziawg/link_identity.c:345-391 | an observation depends only on the links that have the name or the alias, whatever order the kernel lists links in |
| LinkIdentity.ObservationFromOrder | src/amneziawg/link_identity.c:345-391 | and listed in one fixed order of indices, duplicates included, the same such links give the very same observation |
| LinkIdentity.EventFilter.Add | src/amneziawg/link_identity.c:425-466 | adding an identity tracks its name, alias and journal index, and every index the snapshot lists under that name or alias, duplicates included |
| LinkIdentity.EventFilter.TrackAlias | src/amneziawg/link_identity.c:452-465 | one match is taken from the index, several by a scan, and both ways all holders of the alias are tracked |
| LinkIdentity.EventFilter.IsRelevant | src/amneziawg/link_identity.c:468-496 | a datagram is relevant exactly if it is empty, has a part that cannot be decoded, or has a link event with a tracked index, name or alias |
| LinkIdentity.SingleMatch | src/amneziawg/link_identity.c:456-459 | with a single match the first match is the only holder |
| LinkIdentity.FilterOfCovers | src/amneziawg/link_identity.c:425-466 | after adding identities against a snapshot, every link of interest is known by its index |
| LinkIdentity.IrrelevantRun | src/amneziawg/link_identity.c:468-496 | by induction over any history: events called irrelevant leave every link of interest, and the filter's knowledge of them, as they were |
| LinkIdentity.FilterSoundness | src/amneziawg/link_identity.c:425-496 | any run of notifications that are all called irrelevant leaves the observation of every added identity unchanged, through renames, duplicate aliases and partial messages; between several holders of an alias this takes listings in one order, without which it is unchanged but for which holder is shown |
| LinkIdentity.IndicesAreNeeded | src/amneziawg/link_identity.c:416-423 | without tracked indices the same claim is false: a rename away is announced under the new name only |
| LinkIdentity.LinkGuard.Drain | src/amneziawg/link_identity.c:529-586 | a drain succeeds exactly if, within 256 reads and with no failure, it reaches an empty queue after acceptable messages only |
| LinkIdentity.LinkGuard.Check | src/amneziawg/link_identity.c:624-662 | drain, fresh snapshot, drain; anything short of one exact match among the relevant links closes the guard for good |
| LinkIdentity.NewGuard | src/amneziawg/link_identity.c:588-622 | a guard is handed out, open and on the identity, if and only if the identity is fit for one, its socket works and the first check passes |
| LinkIdentity.AcceptedSnapshotIsOwned | src/amneziawg/link_identity.c:515-527 | a snapshot is accepted if and only if the link table holds the identity and no other link touches its index, name or alias |
| LinkIdentity.GuardContinuity | src/amneziawg/link_identity.c:529-586 | from an owned link, every history of acceptable messages keeps it owned at each of its moments |
| LinkIdentity.GuardMeansOneMatch | src/amneziawg/link_identity.c:645-656 | an accepted snapshot makes `observe` report one match whose index and name are the guarded ones |
| RuntimeJournal.DigitsParse | src/amneziawg/runtime_journal.c:5-34 | the division-based overflow test is exact: accepted are the digit strings of the positive 32-bit numbers, at their value |
| RuntimeJournal.IfindexParse | src/amneziawg/runtime_journal.c:5-34 | the same after trimming white space on both sides |
| RuntimeJournal.MarkerSerialize | src/amneziawg/runtime_journal.c:112-139 | serialization succeeds exactly for markers with valid fields, always below the 256-byte buffer |
| RuntimeJournal.MarkerTextFits | src/amneziawg/runtime_journal.c:112-139 | no valid marker's text reaches the buffer's size |
| RuntimeJournal.StateNamed | src/amneziawg/runtime_journal.c:141-327 | what reads as a state is exactly the name written for it |
| RuntimeJournal.BackendNamed | src/amneziawg/runtime_journal.c:141-327 | what reads as a DNS backend is exactly the name written for it |
| RuntimeJournal.DnsStateNamed | src/amneziawg/runtime_journal.c:141-327 | what reads as a DNS state is exactly the name written for it |
| RuntimeJournal.JournalIfindexIff | src/amneziawg/runtime_journal.c:141-327 | a journal's index is accepted exactly in the decimal form printf gives a 32-bit number |
| RuntimeJournal.ParseJournalIfindex | src/amneziawg/runtime_journal.c:141-327 | the parser's index branch decides exactly that |
| RuntimeJournal.MarkerParse | src/amneziawg/runtime_journal.c:141-327 | the cursor-walking parser decides every text as the line-by-line definition does |
| RuntimeJournal.SplitLines | src/amneziawg/runtime_journal.c:141-327 | the seven `key=value` lines must come in order, each ended by a newline, and nothing may follow |
| RuntimeJournal.JournalRoundTrip | src/amneziawg/runtime_journal.c:84-327 | a text parses to a marker if and only if that marker is valid and serializes to that text, byte for byte |
| RuntimeJournal.ClassifySameObservation | src/amneziawg/runtime_journal.c:330-372 | the classification ignores what two listings of one link table may disagree on |
| RuntimeJournal.ActiveMeansOwned | src/amneziawg/runtime_journal.c:330-372 | a session is shown active if and only if its journal says so and a single link, with the journal's index, has both its name and its token |
| RuntimeJournal.GuardedLinkIsPresent | src/helper/amneziawg_helper_session.c:5-26 | what a link guard accepts, the helper calls its own link, present |
| RuntimeSource.WatchFrom | src/amneziawg/runtime_source.c:1089-1127 | the nearest level that is, or can be, watched is kept; a change means a new, working watch |
| RuntimeSource.IndexNamed | src/amneziawg/runtime_source.c:849-865 | the position found is the first with the name, or there is none |
| RuntimeSafety.ReconcileKeepsSessions | src/amneziawg/runtime_source.c:617-666 | publication loses no session, repeats no name, invents none and keeps the limit, whether or not the scan was complete |
| RuntimeSafety.ScanBasis | src/amneziawg/runtime_source.c:668-733 | what the old filter ignored while a scan was in flight, the new filter may ignore as well, and the new filter knows all links it needs |
| RuntimeSafety.PublishKeeps | src/amneziawg/runtime_source.c:668-733 | publishing, with or without an immediate new scan, keeps the invariant |
| RuntimeSafety.LinkEventsKeep | src/amneziawg/runtime_source.c:1007-1064 | a bounded drain of link notifications, judged by the published filter or ended by a failure, keeps the invariant |
| RuntimeSafety.ObserveKeeps | src/amneziawg/runtime_source.c:384-477 | each name the worker observes keeps the invariant |
| RuntimeSafety.ExecuteKeeps | src/amneziawg/runtime_source.c:544-1256 | every step keeps the invariant: public calls, timers, link and file events, changes of links and journals, worker steps, publication and re-entry |
| RuntimeSafety.RunKeeps | src/amneziawg/runtime_source.c:544-1256 | hence it holds in every state of every run from creation |
| RuntimeSafety.CacheAgreement | src/amneziawg/runtime_source.c:384-477 | cache agreement: with all delivered events processed, a fresh cache of a complete scan answers for every recorded name what a new reading of journals and links would, and it misses no configured name and no journal |
| RuntimeSafety.FreshnessHandshake | src/amneziawg/runtime_source.c:544-568 | in every reachable state fresh records come from a scan started after the last invalidation, both monitors stand, and no record is fresh while a scan runs that another must follow |
| RuntimeSafety.NoLostRefresh | src/amneziawg/runtime_source.c:572-610 | whenever the source is live and a refresh is pending, a debounce or retry timer is armed, or a scan is in flight that will start the next |
| RuntimeSafety.StepConserves | src/amneziawg/runtime_source.c:617-666 | no step but a caller's deletion loses a name whose record was not inactive, that deletion loses only its name, and only publication adds names |
| RuntimeSafety.SessionConservation | src/amneziawg/runtime_source.c:276-320 | the same along every run, with distinct valid names and at most 1024 records throughout |
| RuntimeRefinement.RefreshTimerIsTwoSteps | src/amneziawg/runtime_source.c:948-959 | the object's refresh callback is the system's step and its frame's end, without re-entry between |
| RuntimeRefinement.PublicationIsTwoSteps | src/amneziawg/runtime_source.c:668-733 | the same for publication |
| RuntimeRefinement.LinkDispatchIsOneStep | src/amneziawg/runtime_source.c:1007-1064 | the object's drain of the link socket is one step of the system |
| RuntimeRefinement.OtherCallbacksAreOneStep | src/amneziawg/runtime_source.c:583-1005 | so are its file events and its retry timer |
| RuntimeRefinement.CallIsOneStep | src/amneziawg/runtime_source.c:800-894 | every public operation of the object is one step, at any moment it may be called |
| RuntimeRefinement.SwitchingIsCalls | src/amneziawg/runtime_source.c:1206-1256 | starting and switching monitoring on are the operation that begins them, followed by an ordinary visible refresh just when they had something to do |
| RuntimeCache.IndexRecords | src/amneziawg/runtime_source.c:625-631 | a scan's records by name, the last of a name winning |
| RuntimeCache.CarryKnown | src/amneziawg/runtime_source.c:637-654 | known sessions come first, each at its new observation or as unknown; what is left over are the names not yet recorded |
| RuntimeCache.AdmitNew | src/amneziawg/runtime_source.c:655-664 | new names follow while there is room, none twice |
| RuntimeCache.ReconcileScanRecords | src/amneziawg/runtime_source.c:617-666 | the in-place rebuild gives the reconciled table that `ReconcileKeepsSessions` is about |
| RuntimeCache.NormalizeNames | src/amneziawg/runtime_source.c:213-233 | the first 1024 distinct valid names and no others, in the order of `strcmp` |
| Names.ListIsUnique | src/amneziawg/runtime_source.c:213-254 | a set of names has only one such list |
| Names.Equal | src/amneziawg/runtime_source.c:243-254 | comparing two lists name by name tells whether they hold the same names |
| Names.Sorted | src/amneziawg/runtime_source.c:228-232 | the list of a set of names, in order and complete |
| RuntimeCache.FindName | src/amneziawg/runtime_source.c:854-862 | the loop finds the first record of a name, if any |
| RuntimeCache.PreviousSessions | src/amneziawg/runtime_source.c:777-784 | a scan is asked about every record that is not inactive, and no other |
| RuntimeCache.FreshShown | src/amneziawg/runtime_source.c:896-920 | fresh records are shown as they are |
| RuntimeCache.StaleShown | src/amneziawg/runtime_source.c:896-920 | stale ones are shown for exactly the known sessions, always as unknown and without a link |
| RuntimeCache.RuntimeCache.EnsureFileMonitor | src/amneziawg/runtime_source.c:1089-1127 | the loop over the directory and its ancestors settles for the nearest level that can be watched |
| RuntimeCache.RuntimeCache.CachedRecord | src/amneziawg/runtime_source.c:922-946 | the cached answer: the first record of a valid name, and nothing while stale |
| RuntimeCache.RuntimeCache.DupCachedRecords | src/amneziawg/runtime_source.c:896-920 | the copy loop yields what `FreshShown` and `StaleShown` describe |
| RuntimeCache.RuntimeCache.DrainSocket | src/amneziawg/runtime_source.c:1012-1049 | the bounded read loop judges exactly the datagrams read before it ended |
| DnsConfig.LabelsJoin | src/amneziawg/dns_config.c:50-78 | labels mean what they should: joined by dots they are the name, and none holds a dot |
| DnsConfig.HostIsDomain | src/amneziawg/dns_config.c:61-77 | the one-pass loop accepts exactly the texts all of whose labels are 1 to 63 letters, digits and hyphens with no hyphen at an end, as section 2.3.1 of RFC 1035 has them, relaxed by section 2.1 of RFC 1123 |
| DnsConfig.ValueIsDomain | src/amneziawg/dns_config.c:50-78 | the same for whole names: at most 253 bytes, with an optional final dot |
| DnsConfig.ItemsSeparate | src/amneziawg/dns_config.c:171-202 | addresses and names of a list end up apart, each in its order and none lost |
| DnsConfig.IsDnsList | src/amneziawg/dns_config.c:139-169 | a list is accepted exactly if every item is an address, or a name that does not look like an IPv4 address |
| DnsConfig.IsDnsItem | src/amneziawg/dns_config.c:139-169 | the test of one item, with what `inet_pton` says as a parameter |
| DnsConfig.ValueLooksLikeIpv4 | src/amneziawg/dns_config.c:129-137 | digits and dots only, and not empty |
| DnsConfig.DnsBuilder.AddValue | src/amneziawg/dns_config.c:171-202 | a list is appended whole or not at all |
| DnsConfig.Be32RoundTrip | src/amneziawg/dns_config.c:204-214 | four big-endian bytes give back the 32-bit number |
| DnsConfig.Be32Unique | src/amneziawg/dns_config.c:204-214 | and a number gives back the four bytes it was read from |
| DnsConfig.MeasureIsExact | src/amneziawg/dns_config.c:81-127 | measuring accepts a configuration if and only if it is well formed and its encoding fits 256 KiB, with its exact length; too large is told from malformed |
| DnsConfig.MeasureServers | src/amneziawg/dns_config.c:95-107 | the loop over servers stops at the first that is malformed or no longer fits |
| DnsConfig.MeasureDomains | src/amneziawg/dns_config.c:108-123 | the same for domains |
| DnsConfig.Measure | src/amneziawg/dns_config.c:81-127 | header and both loops make up the measure that `MeasureIsExact` is about |
| DnsConfig.Serialize | src/amneziawg/dns_config.c:216-251 | the buffer filled in place at a moving offset is exactly the encoding, for every configuration that measures and no other |
| DnsConfig.PutServers | src/amneziawg/dns_config.c:231-238 | servers are written one after another, and the offset ends behind them |
| DnsConfig.PutDomains | src/amneziawg/dns_config.c:239-247 | the same for domains |
| DnsConfig.EncodedDecodes | src/amneziawg/dns_config.c:216-316 | what measures decodes from its encoding to itself |
| DnsConfig.DecodedEncodes | src/amneziawg/dns_config.c:253-316 | what a payload decodes to measures, and encodes to that payload |
| DnsConfig.PayloadRoundTrip | src/amneziawg/dns_config.c:216-316 | a payload parses to a configuration if and only if that configuration measures and its encoding is that payload |
| DnsConfig.Parse | src/amneziawg/dns_config.c:253-316 | the parser over a moving offset decides every payload as the codec's definition does |
| DnsConfig.ParseServers | src/amneziawg/dns_config.c:274-291 | the loop over servers reads the announced number of them, or fails |
| DnsConfig.ParseDomains | src/amneziawg/dns_config.c:292-307 | the same for domains |
| DnsConfig.DomainAt | src/amneziawg/dns_config.c:296-306 | a domain record's length is believed only if it is at least one and within the payload |
| Config.LinesJoin | src/amneziawg/config.c:98-112 | lines are what the text is made of |
| Config.ScanConfigEnvelope | src/amneziawg/config.c:69-223 | the scanner's loop decides every text as the line-by-line definition does, and finds the same directives, DNS settings and end of the interface line |
| Config.ParseConfigEnvelope | src/amneziawg/config.c:225-268 | the scan's findings, if the DNS settings measure as well |
| Config.QuickLineReadsBack | src/amneziawg/config.c:187-205 | a rendered directive is read as exactly that directive again |
| Config.EnvelopeQuick | src/amneziawg/config.c:69-223 | what is collected for awg-quick is a text of such lines and never beyond the configuration limit |
| Config.ScanBudget | src/amneziawg/config.c:191-198 | the budget holds after every prefix of lines |
| Config.InterfaceSplit | src/amneziawg/config.c:127-154 | at the line that opens the interface section the scanner notes an offset that nothing later moves |
| Config.OneInterfaceLine | src/amneziawg/config.c:127-154 | in a scanned configuration exactly one line opens the interface section |
| Config.ScanConcat | src/amneziawg/config.c:98-207 | scanning can be interrupted between any two lines |
| Config.LinesSplit | src/amneziawg/config.c:98-112 | the first lines are a prefix of the text and the others what follows |
| Config.Splice | src/amneziawg/config.c:348-366 | the three copied spans, and the newline a last line may lack, make up the text with the insertion |
| Config.BuildSnapshot | src/amneziawg/config.c:291-373 | the snapshot, or the same error: bad protocol text, no interface, too large |
| Config.SplicedScan | src/amneziawg/config.c:291-373 | scanning the spliced text finds the inserted directives and nothing else new |
| Config.SpliceFixpoint | src/amneziawg/config.c:291-373 | if a configuration is accepted and its snapshot can be built, the snapshot is accepted, has the same quick directives byte for byte and no DNS settings, and leaves the reserve free |
| Config.EnvelopeDnsSerializes | src/amneziawg/config.c:225-268 | every accepted configuration has DNS settings that serialize and read back |
| QuickConfig.AddLinkClaim | src/helper/amneziawg_quick_config.c:16-84 | the claim is put in just after the interface line, or the same error is given |
| QuickConfig.ClaimAlwaysFits | src/helper/amneziawg_quick_config.c:7-84 | every snapshot the helper builds takes the claim of every valid token within the configuration limit |
| QuickConfig.ClaimIsInsertion | src/helper/amneziawg_quick_config.c:71-83 | deleting the inserted span gives back the snapshot |
| QuickConfig.ClaimedIsRejected | src/helper/amneziawg_quick_config.c:16-84 | a claimed configuration is rejected as unsafe, so it is never claimed twice |
| Config.HookStops | src/amneziawg/config.c:156-174 | each of the four command hooks stops the scanner, in any spelling, with any value and in any section: as unsafe, or as invalid if it stands before any section or holds a control character |
| Config.AcceptedHasNoHook | src/amneziawg/config.c:156-174 | no accepted configuration has a command hook on any line |
| QuickConfig.RenderedHookStops | src/helper/amneziawg_quick_config.c:45-51 | a hook written like the claim's stops an open interface section as unsafe |
| QuickDiagnostics.ChunksDoNotMatter | src/helper/amneziawg_quick_diagnostics.c:157-182 | the outcome does not depend on how the stream was cut |
| QuickDiagnostics.StreamMeaning | src/helper/amneziawg_quick_diagnostics.c:157-191 | a stream of complete lines within the limit and without NUL or carriage return is classified line by line; any other blocks recovery |
| QuickDiagnostics.FindingsReflect | src/helper/amneziawg_quick_diagnostics.c:53-155 | after any lines the findings say what they should: whether the order so far is clean, the stage reached, interface added, link deleted |
| QuickDiagnostics.EvidenceIsExact | src/helper/amneziawg_quick_diagnostics.c:53-191 | recovery evidence is found if and only if the whole stream consists of complete lines that issue no DNS, route or firewall command, go through the stages from interface to MTU without going back, add the link and delete it after everything else |
| QuickDiagnostics.LastStage | src/helper/amneziawg_quick_diagnostics.c:53-63 | with such evidence the last stage lies between interface and MTU |
| QuickDiagnostics.Diagnostics.Consume | src/helper/amneziawg_quick_diagnostics.c:157-182 | the fixed line buffer, filled in place, holds what the definition collects, and never overflows |
| QuickDiagnostics.Diagnostics.FailedEarly | src/helper/amneziawg_quick_diagnostics.c:222-232 | the verdict asks for the evidence, complete diagnostics and a child that exited with a failure |
| ProfileReport.ReportObject.Add | src/amneziawg/profile_report.c:30-53 | a record is added exactly if name and status are valid, the name is new and there is room |
| ProfileReport.UnsplitSplit | src/amneziawg/profile_report.c:104-150 | fields joined by the separator are the text, and none holds it |
| ProfileReport.EveryReportEncodes | src/amneziawg/profile_report.c:55-84 | a report encodes if and only if its records could have been added; the 8192-byte limit never refuses one |
| ProfileReport.ReportRoundTrip | src/amneziawg/profile_report.c:55-150 | every such report decodes to itself under the status matching its completeness, and is refused under the other |
| ProfileReport.DecodedIsValid | src/amneziawg/profile_report.c:104-150 | what decodes has distinct valid names, at most 256 of them, and survives another round trip |
| ProfileReport.CanonicalExactly | src/amneziawg/profile_report.c:86-150 | an accepted text is the encoding of its report if and only if none of its numbers has needless zeros |
| ProfileReport.EncodeReport | src/amneziawg/profile_report.c:55-84 | the loop, which checks each record again, gives that encoding |
| ProfileReport.DecodeReport | src/amneziawg/profile_report.c:104-150 | the loop decides every text as the definition does |
| Backend.ExactlyOnce | src/amneziawg/backend.c:365-427 | in every run the callback has run at most once; until then the deadline is armed and the transport owes a callback; afterwards the result never changes |
| Backend.DeliveredExactly | src/amneziawg/backend.c:365-606 | in every run, the result has been delivered if and only if the call was refused at once, or one of its events settled it: the deadline, any reply, or a bus that fails or comes too late, or finds the call cancelled |
| Backend.RunsDeliver | src/amneziawg/backend.c:365-606 | no run goes on without its result: it holds at most three events of its own, whatever callers and backend do; after the third, or once nothing is owed any more, exactly one result has been delivered; and from the deadline on the event that delivers is always possible |
| Backend.WaitingEnds | src/amneziawg/backend.c:402-562 | each event an undelivered call waits for delivers it, or brings on the one that will |
| Backend.ReplyIsGenuine | src/amneziawg/backend.c:458-512 | a reply is delivered as one only in time, to a call not cancelled, from the service itself |
| Backend.RunKeeps | src/amneziawg/backend.c:365-606 | the invariant behind it, over every interleaving of bus, reply, cancellation, stop and deadline |
| Backend.Remaining | src/amneziawg/backend.c:402-420 | no time remains exactly from the deadline on |
| Inventory.ExecuteKeeps | src/amneziawg/inventory.c:72-490 | every step keeps the invariant, with callbacks that call back into any public function |
| Inventory.QueuedWorkIsArmed | src/amneziawg/inventory.c:225-262 | between main-loop steps of any run: queued work that nothing stands in the way of has a timer armed |
| Inventory.QueueOverArmed | src/amneziawg/inventory.c:241-262 | queuing over an armed timer never lowers the purpose; the timer is dropped exactly when suspended and wanted earlier, and ends up later exactly when, unsuspended, it is wanted earlier and more time passes between the two readings of the clock than it is wanted earlier by |
| Inventory.RunIsTimely | src/amneziawg/inventory.c:225-262 | by induction over runs with a clock that never goes back: no timer is armed for later than what is now made of the queued delay |
| Inventory.ArmedTimerMovesLater | src/amneziawg/inventory.c:225-278 | in every run, the steps that make an armed timer later are exactly those that queue for an earlier time, unsuspended, and lose more between their two readings than they gain |
| Inventory.ClockSlipMovesTimer | src/amneziawg/inventory.c:225-262 | a run from creation in which it does: armed for 5000, a timer is armed anew for 5001 when three milliseconds are queued between 1999 and 2001 |
| Inventory.PurposeKept | src/amneziawg/inventory.c:241-262 | a visible queued refresh stays visible until it is dispatched as such, or everything is reset |
| Inventory.RetiredForever | src/amneziawg/inventory.c:301-306 | a request once retired is never current again, also after authorization is lost and regained |
| Inventory.RetiredResultIgnored | src/amneziawg/inventory.c:376-419 | and its late result changes nothing |
| Controller.ExecuteKeepsExactly | src/amneziawg/controller.c:149-303 | from the invariant, a step ends in ownership, and in the invariant, if and only if it is not the end of a notice whose activity has meanwhile sent its call or asked for confirmation |
| Controller.RunKeeps | src/amneziawg/controller.c:149-303 | hence the invariant holds along every run up to its first such step |
| Controller.ActivityOwnership | src/amneziawg/controller.c:581-852 | for every run, all of its states have ownership if and only if no notice in it is overtaken; ownership being: at most one mutation call is undelivered and it belongs to the current activity, the token is that of the confirmation under way, and between main-loop steps both confirmations have it and a mutating activity has its call in flight or its verification under way, not both |
| Controller.EndedForever | src/amneziawg/controller.c:149-244 | an activity that has ended never matches again, through loss and return of authorization, new activities and late answers, in every run whatsoever |
| Controller.EndedChangesNothing | src/amneziawg/controller.c:648-774 | whatever still carries the id of an ended activity changes nothing; a late reply is only taken off the list of calls |
| Controller.OvertakenImport | src/amneziawg/controller.c:1100-1142 | the counterexample's middle: an import whose call is in flight is ended by a notice that has just returned |
| Controller.TwoCallsAreReachable | src/amneziawg/controller.c:1100-1142 | the counterexample: a run from creation with two undelivered mutation calls between main-loop steps |
| Controller.FinishBreaks | src/amneziawg/controller.c:228-244 | ending an activity keeps ownership exactly if it has no call in flight and no token |
| HelperProfiles.Storage.WriteCandidate | src/helper/amneziawg_helper_storage.c:535-552 | a candidate gets a new name and the whole contents, or fails, possibly leaving a partial file behind |
| HelperProfiles.Storage.RemoveStagingAndSync | src/helper/amneziawg_helper_storage.c:585-597 | at most the named entry goes; success means it is gone |
| HelperProfiles.Storage.RemoveConfigAndSync | src/helper/amneziawg_helper_storage.c:585-597 | the same in the configuration directory |
| HelperProfiles.Storage.UnlinkStaging | src/helper/amneziawg_helper_storage.c:599-602 | succeeds exactly if it removed the entry |
| HelperProfiles.Storage.RenameNoReplace | src/helper/amneziawg_helper_storage.c:605-610 | moves the candidate into an empty slot, or changes nothing |
| HelperProfiles.Storage.Exchange | src/helper/amneziawg_helper_storage.c:613-618 | exchanges candidate and profile, or changes nothing |
| HelperProfiles.Storage.ConfigIdentity | src/helper/amneziawg_helper_storage.c:630-640 | the identity of a secure regular file in the slot, if there is one |
| HelperProfiles.Storage.DisplacedMatches | src/helper/amneziawg_helper_storage.c:652-669 | a match means that the displaced file is the confirmed one |
| HelperProfiles.Profiles.RuntimeState | src/helper/amneziawg_helper_session.c:28-58 | success tells which of journal and link a session has, as the helper owns links; contradicting ones are a conflict, and doubt is a failure |
| HelperProfiles.Profiles.TargetStatus | src/helper/amneziawg_helper_profiles.c:269-291 | success only for a secure file in the slot with no journal and no link of the name, not found only for an empty slot, active only with a journal |
| HelperProfiles.Profiles.WriteCandidate | src/helper/amneziawg_helper_profiles.c:158-228 | on success the candidate holds an input that parses and gave a snapshot; on failure it is gone, or at most left over with a file system failure |
| HelperProfiles.Profiles.CheckCandidate | src/helper/amneziawg_helper_profiles.c:191-212 | success exactly when a snapshot was built from the stripped candidate; a failed strip counts as an invalid configuration |
| HelperProfiles.Profiles.Abandon | src/helper/amneziawg_helper_profiles.c:309-315 | giving up removes the candidate and reports the reason, or a file system failure if it cannot |
| HelperProfiles.Profiles.Import | src/helper/amneziawg_helper_profiles.c:293-341 | success: the slot, empty before, holds the input, all other profiles are as they were, staging as well; a failed rollback, a time-out or a signal leaves it so or as it was just before the rename, and any other status as it was; only the transaction's own candidate is ever unlinked |
| HelperProfiles.Profiles.RenameCandidate | src/helper/amneziawg_helper_profiles.c:316-341 | the same from the rename on |
| HelperProfiles.Profiles.KeepRenamed | src/helper/amneziawg_helper_profiles.c:332-340 | a rename that cannot be made to last takes the profile back out |
| HelperProfiles.Profiles.RollbackReplacement | src/helper/amneziawg_helper_profiles.c:344-354 | a file system failure means that the exchange was undone, a failed rollback that it may not have been; the undone candidate alone is unlinked |
| HelperProfiles.Profiles.ExchangeCandidate | src/helper/amneziawg_helper_profiles.c:388-405 | the same from the exchange on |
| HelperProfiles.Profiles.KeepExchanged | src/helper/amneziawg_helper_profiles.c:395-404 | a displaced file that is not the confirmed one, or that cannot be discarded for good, is put back |
| HelperProfiles.Profiles.Replace | src/helper/amneziawg_helper_profiles.c:356-405 | success: the slot holds the input and staging no candidate; a file system failure leaves the profile as it was just before the exchange; unlinked are only its own candidate and a displaced file that is the confirmed one; a failed rollback still leaves the old or the new profile, and the old file in one of the directories unless it was the confirmed one |
| Text.DecimalCanonical | src/amneziawg/runtime_journal.c:128-133 | it has no leading zero, and its value is the number |
| Text.CanonicalDecimalUnique | src/amneziawg/runtime_journal.c:128-133 | a text without leading zeros is the one rendering of its value |
| Text.TrimSpan | src/amneziawg/config.c:23-28 | moving both ends inwards over white space leaves the trimmed text |
| Text.FindFirst | src/amneziawg/config.c:98-103 | the byte found is the first one, and none is missed |

## Left out

- RuntimeSafety.CacheAgreement: every change of a journal is taken to reach the file monitor while one stands, as one event or more; a monitor that the system cancels without an event is not modelled. It speaks of states with no event of the journal directory on its way and no overflow of the link queue, which the socket reports as a failure. Names are sets there; the object keeps the sorted lists.
- RuntimeSafety.FreshnessHandshake: the 64-bit generation never wraps.
- RuntimeCache.RuntimeCache.PublishScan: notifications are calls out of the object. Callers that re-enter from the one notification that is not the last thing a callback does are covered by the system's frames, and the object's methods state the case without re-entry.
- RuntimeCache.RuntimeCache.FileEvent: events about unrelated files, which the source ignores, are steps that change nothing and are not listed; whether an event takes the monitor away is a parameter of the step, not read off its paths.
- LinkIdentity.EventFilter.IsRelevant: netlink messages are taken as decoded records; everything that cannot be decoded is one case.
- LinkIdentity.NewGuard: opening and binding the socket, time left and cancellation are one parameter.
- LinkIdentity.LinkGuard.Drain: deadlines and cancellation during a drain are failed reads.
- DnsConfig.IsDnsItem: `inet_pton` is a parameter, any function of the text.
- DnsConfig.DecodedEncodes: characters may exceed a byte in this model, so it asks for a text of bytes; the other direction does not need to.
- ProfileReport.DecodeReport: the check for valid UTF-8 is omitted, as every accepted text is ASCII by the later checks.
- HelperProfiles.Profiles.Import: timed out and signalled may be reported after the profile was committed, as the stop check comes last; the contract says so. The failure to format a path is omitted.
- HelperProfiles.Profiles.Replace: other programs may change the configuration directory, journals and links at any point up to the exchange, not after it. `fsync` only succeeds or fails; what a power failure leaves is not modelled.
- Backend.BackendCall.OnReply: what a reply contains is not decoded.
- Controller.ControllerObject.CompleteMutationAction: requests for a refresh of the inventory and of the runtime are calls out of the object; the end of the activity follows as a frame.
- Controller.ControllerObject.DispatchAction: it ends at its first callback, the rest being frames; the admission policy, dependency lookup, dialogs and monitors are answers given to a step; the content of notices, the model's rows and the suspension of the inventory are not modelled.
- Inventory.InventoryObject.RequestNow: a refresh that is refused dispatch is not queued again, as in the source; capabilities and the model's data are not part of it. Request ids never wrap.
- QuickDiagnostics.Diagnostics.FailedEarly: the status reported to the user for a failed stage is not modelled.
- Timer delays beyond their order, texts of errors, reference counts and the wiping of secrets: no behaviour beyond what is modelled.
- Raw netlink, sockets, file descriptors and stat checks: the model starts from what they yield.
- GTK, libnm, the command line, IPC sockets and polkit: user interface and foreign calls.
- Tunnel, supervisor, subprocess and firewall code of the helper: separate machinery that the modelled transactions do not use.
- Admission, deadline and model tables: finite predicates and constants, used as answers or not at all.
