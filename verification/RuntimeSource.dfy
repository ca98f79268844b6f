/** The runtime source: cached session records, the monitors that invalidate
    them and the timers and flags that order scans.

    `Source` is the source's state as a value and the functions on it are the
    specification; the class in `RuntimeCache` is the object whose methods update
    its fields in place. Names are a set here; the object keeps them as the sorted
    list without duplicates that the source keeps. The three counters at the end
    of `Source` are history: they count invalidations and remember the count at the
    start of the running scan and of the scan whose records are published. */
module RuntimeSource {
  import opened Amneziawg
  import opened LinkIdentity
  import opened Refresh
  import opened RuntimeJournal

  const MAX_NAMES: nat := 1024
  const EVENT_DRAIN_LIMIT: nat := 64
  const WATCH_LEVELS: nat := 3
  const RETRY_STEPS: nat := 4

  /** A tracked one-shot source; `Dispatching` while its own callback runs and has
      not yet forgotten the identifier. */
  datatype Timer = Off | Armed | Dispatching

  datatype RuntimeRecord = RuntimeRecord(name: string, state: RuntimeState, interfaceExists: bool)

  datatype ScanRequest = ScanRequest(names: set<string>, previous: set<string>, generation: nat)

  datatype ScanResult = ScanResult(records: seq<RuntimeRecord>, filter: Option<LinkFilter>, generation: nat,
                                   complete: bool)

  datatype Timers = Timers(
    debounce: Timer,
    orphans: nat,  // refresh timers still attached after their identifier was lost
    retry: bool,
    retryAttempt: nat)

  datatype Monitors = Monitors(
    link: bool,
    file: Option<nat>)  // 0 the journal directory, 1 its parent, 2 its grandparent

  datatype Progress = Progress(generation: nat, pending: bool, running: bool, queued: bool)

  datatype Purposes = Purposes(queued: Purpose, scan: Purpose, retry: Purpose, mutationActive: bool, reconciling: bool)

  datatype Life = Life(enabled: bool, started: bool, stopping: bool)

  datatype Epochs = Epochs(invalidations: nat, scan: nat, cache: nat)

  datatype Source = Source(
    names: set<string>,
    records: seq<RuntimeRecord>,
    filter: Option<LinkFilter>,
    isFresh: bool,
    timers: Timers,
    monitors: Monitors,
    scan: Progress,
    purposes: Purposes,
    life: Life,
    epochs: Epochs)

  const NEW_SOURCE := Source({}, [], None, false, Timers(Off, 0, false, 0), Monitors(false, None),
                             Progress(0, false, false, false), Purposes(Reconcile, Reconcile, Reconcile, false, false),
                             Life(false, false, false), Epochs(0, 0, 0))

  /** What the system grants when monitors are (re)installed. */
  datatype Grants = Grants(watch0: bool, watch1: bool, watch2: bool, socket: bool) {
    function Watch(level: nat): bool {
      if level == 0 then watch0 else if level == 1 then watch1 else watch2
    }
  }

  predicate IsRunning(s: Source) {
    s.life.started && !s.life.stopping
  }

  /** Running with monitoring on: the only state in which anything is scheduled. */
  predicate Live(s: Source) {
    IsRunning(s) && s.life.enabled
  }

  predicate IsChecking(s: Source) {
    Live(s) && (s.timers.debounce != Off || s.scan.running)
  }

  function AutomaticPurpose(s: Source): Purpose {
    if s.purposes.mutationActive || s.purposes.reconciling then Reconcile else Visible
  }

  function QueueScan(s: Source, purpose: Purpose): Source {
    var effective := if s.scan.running then Max(purpose, s.purposes.scan) else purpose;
    var generation := if s.scan.pending then s.scan.generation else s.scan.generation + 1;
    s.(scan := s.scan.(generation := generation, pending := true),
       purposes := s.purposes.(reconciling := purpose == Reconcile, queued := Max(s.purposes.queued, effective)))
  }

  function Invalidate(s: Source, purpose: Purpose): Source {
    QueueScan(s, purpose).(isFresh := false, epochs := s.epochs.(invalidations := s.epochs.invalidations + 1))
  }

  function ScheduleRefresh(s: Source): Source {
    if Live(s) && s.timers.debounce.Off? then s.(timers := s.timers.(debounce := Armed)) else s
  }

  function NextAttempt(attempt: nat): nat {
    if attempt < RETRY_STEPS then attempt + 1 else attempt
  }

  function ScheduleRetry(s: Source, purpose: Purpose): Source {
    if !Live(s) then s
    else
      var noted := s.(purposes := s.purposes.(retry := Max(s.purposes.retry, purpose)));
      if s.timers.retry then noted
      else noted.(timers := s.timers.(retry := true, retryAttempt := NextAttempt(s.timers.retryAttempt)))
  }

  function ClearRetry(s: Source): Source {
    s.(timers := s.timers.(retry := false), purposes := s.purposes.(retry := Reconcile))
  }

  // ------------------------------------------------------------------------
  // Monitors
  // ------------------------------------------------------------------------

  /** The first level, from `level` on, that is already watched or can be. */
  function WatchFrom(current: Option<nat>, grants: Grants, level: nat): (r: (Option<nat>, bool, bool))
    ensures !r.1 ==> r.0 == current
    ensures r.1 ==> r.0.Some? && r.2 && r.0 != current
    ensures r.2 ==> r.0.Some?
    decreases WATCH_LEVELS - level
  {
    if level >= WATCH_LEVELS then (current, false, false)
    else if current == Some(level) then (current, false, true)
    else if grants.Watch(level) then (Some(level), true, true)
    else WatchFrom(current, grants, level + 1)
  }

  datatype Ensured = Ensured(source: Source, changed: bool, ready: bool)

  function EnsureMonitors(s: Source, grants: Grants): Ensured {
    var file := WatchFrom(s.monitors.file, grants, 0);
    var link := s.monitors.link || grants.socket;
    Ensured(s.(monitors := Monitors(link, file.0)), file.1 || (link && !s.monitors.link), file.2 && link)
  }

  // ------------------------------------------------------------------------
  // Scans
  // ------------------------------------------------------------------------

  predicate IdentifiesSession(r: RuntimeRecord) {
    r.state != Inactive
  }

  function NamesOf(records: seq<RuntimeRecord>): set<string> {
    set i | 0 <= i < |records| :: records[i].name
  }

  predicate DistinctNames(records: seq<RuntimeRecord>) {
    forall i, j | 0 <= i < j < |records| :: records[i].name != records[j].name
  }

  predicate RecordsOk(records: seq<RuntimeRecord>) {
    |records| <= MAX_NAMES && DistinctNames(records) && forall n :: n in NamesOf(records) ==> NameIsValid(n)
  }

  lemma NamesOfSnoc(records: seq<RuntimeRecord>, last: RuntimeRecord)
    ensures NamesOf(records + [last]) == NamesOf(records) + {last.name}
  {
    var r := records + [last];
    assert r[|records|] == last;
    forall n | n in NamesOf(records) ensures n in NamesOf(r) {
      var i :| 0 <= i < |records| && records[i].name == n;
      assert r[i].name == n;
    }
  }

  function Sessions(records: seq<RuntimeRecord>): set<string> {
    set i | 0 <= i < |records| && IdentifiesSession(records[i]) :: records[i].name
  }

  predicate CanStart(s: Source) {
    Live(s) && !s.scan.running && s.scan.pending
  }

  /** The first half of starting a scan: the monitors come first. When this
      notifies, callers may re-enter before the second half. */
  function PrepareScan(s: Source, grants: Grants): Source
    requires CanStart(s)
  {
    var e := EnsureMonitors(s, grants);
    if e.changed || !e.ready then Invalidate(e.source, s.purposes.queued) else e.source
  }

  predicate PreparationNotifies(s: Source, grants: Grants) {
    var e := EnsureMonitors(s, grants);
    (e.changed || !e.ready) && s.isFresh
  }

  function LaunchScan(s: Source): Source
    requires CanStart(s)
  {
    s.(scan := s.scan.(pending := false, queued := false, running := true),
       purposes := s.purposes.(scan := s.purposes.queued, queued := Reconcile),
       epochs := s.epochs.(scan := s.epochs.invalidations))
  }

  function RequestOf(s: Source): ScanRequest {
    ScanRequest(s.names, Sessions(s.records), s.scan.generation)
  }

  /** A scan started without re-entry. */
  function StartScan(s: Source, grants: Grants): Source {
    if CanStart(s) then
      var prepared := PrepareScan(s, grants);
      LaunchScan(prepared)
    else s
  }

  // ------------------------------------------------------------------------
  // Publication
  // ------------------------------------------------------------------------

  function Observed(records: seq<RuntimeRecord>, name: string): (r: Option<RuntimeRecord>)
    ensures r.Some? ==> r.value.name == name && r.value in records
    ensures r.Some? <==> name in NamesOf(records)
  {
    if records == [] then None
    else
      var last := records[|records| - 1];
      assert NamesOf(records) == NamesOf(records[..|records| - 1]) + {last.name};
      if last.name == name then Some(last) else Observed(records[..|records| - 1], name)
  }

  /** A known session as an incomplete scan leaves it. */
  function Carried(previous: RuntimeRecord, observed: Option<RuntimeRecord>): RuntimeRecord {
    RuntimeRecord(previous.name,
                  if observed.Some? then observed.value.state else Unknown,
                  observed.Some? && observed.value.interfaceExists)
  }

  function CarriedSessions(previous: seq<RuntimeRecord>, found: seq<RuntimeRecord>): (r: seq<RuntimeRecord>)
    ensures |r| <= MAX_NAMES
  {
    if previous == [] then []
    else
      var before := CarriedSessions(previous[..|previous| - 1], found);
      var last := previous[|previous| - 1];
      if |before| < MAX_NAMES && IdentifiesSession(last) then before + [Carried(last, Observed(found, last.name))]
      else before
  }

  /** `base` followed by the records with names not yet there, up to the limit. */
  function WithNew(base: seq<RuntimeRecord>, found: seq<RuntimeRecord>): (r: seq<RuntimeRecord>)
    requires |base| <= MAX_NAMES
    ensures |r| <= MAX_NAMES
  {
    if found == [] then base
    else
      var before := WithNew(base, found[..|found| - 1]);
      var last := found[|found| - 1];
      if |before| < MAX_NAMES && last.name !in NamesOf(before) then before + [last] else before
  }

  function ReconcileRecords(previous: seq<RuntimeRecord>, result: ScanResult): seq<RuntimeRecord> {
    if result.complete then result.records
    else WithNew(CarriedSessions(previous, result.records), result.records)
  }

  predicate Accepts(s: Source, ready: bool, result: Option<ScanResult>) {
    Live(s) && ready && result.Some? && result.value.generation == s.scan.generation && !s.scan.pending
  }

  function Accept(s: Source, result: ScanResult): Source {
    var published := s.(records := ReconcileRecords(s.records, result), filter := result.filter,
                        isFresh := true, epochs := s.epochs.(cache := s.epochs.scan));
    if result.complete then
      var cleared := ClearRetry(published);
      cleared.(timers := cleared.timers.(retryAttempt := 0))
    else ScheduleRetry(published, s.purposes.scan)
  }

  /** The monitors are checked before anything a scan found is believed. */
  function RecheckMonitors(s: Source, grants: Grants, result: Option<ScanResult>): Ensured {
    var ended := s.(scan := s.scan.(running := false));
    if !Live(ended) then Ensured(ended, false, false)
    else
      var e := EnsureMonitors(ended, grants);
      if e.changed || !e.ready then
        var invalid := Invalidate(e.source, s.purposes.scan);
        e.(source := if e.changed then invalid.(scan := invalid.scan.(queued := true)) else invalid)
      else if result.None? && !s.scan.pending then
        e.(source := ScheduleRetry(Invalidate(e.source, s.purposes.scan), s.purposes.scan))
      else e
  }

  /** Publication up to the decision whether to scan again at once. */
  function PublishResult(s: Source, grants: Grants, result: Option<ScanResult>): Source {
    var e := RecheckMonitors(s, grants, result);
    var settled := if Accepts(e.source, e.ready, result) then Accept(e.source, result.value) else e.source;
    if Live(settled) && !e.ready then ScheduleRetry(settled, s.purposes.scan) else settled
  }

  predicate Restarts(s: Source) {
    Live(s) && s.scan.pending && s.scan.queued
  }

  function ClosePublication(s: Source): Source {
    s.(scan := s.scan.(queued := false), purposes := s.purposes.(scan := Reconcile))
  }

  function EndPublication(s: Source): Source {
    if IsChecking(s) then s else s.(purposes := s.purposes.(reconciling := false))
  }

  /** The whole idle callback, without re-entry. */
  function Publish(s: Source, grants: Grants, result: Option<ScanResult>, again: Grants): Source {
    var settled := PublishResult(s, grants, result);
    var closed := ClosePublication(settled);
    EndPublication(if Restarts(settled) then StartScan(closed, again) else closed)
  }

  // ------------------------------------------------------------------------
  // Public operations and callbacks
  // ------------------------------------------------------------------------

  function RequestRefresh(s: Source, purpose: Purpose): Source {
    if !Live(s) then s else ScheduleRefresh(Invalidate(ClearRetry(s), purpose))
  }

  function Poll(s: Source, purpose: Purpose): Source {
    if !Live(s) then s
    else if s.scan.running || s.scan.pending then
      var p := s.purposes;
      s.(purposes := p.(reconciling := if purpose == Visible then false else p.reconciling,
                        scan := if s.scan.running then Max(p.scan, purpose) else p.scan,
                        queued := if s.scan.pending then Max(p.queued, purpose) else p.queued))
    else ScheduleRefresh(QueueScan(ClearRetry(s), purpose))
  }

  function IndexNamed(records: seq<RuntimeRecord>, name: string): (r: Option<nat>)
    ensures r.Some? ==> r.value < |records| && records[r.value].name == name
    ensures r.Some? ==> forall i | 0 <= i < r.value :: records[i].name != name
    ensures r.None? ==> forall i | 0 <= i < |records| :: records[i].name != name
  {
    if records == [] then None
    else if records[0].name == name then Some(0)
    else
      var rest := IndexNamed(records[1..], name);
      assert forall i | 1 <= i < |records| :: records[i] == records[1..][i - 1];
      if rest.Some? then Some(rest.value + 1) else None
  }

  function WithoutFirst(records: seq<RuntimeRecord>, name: string): seq<RuntimeRecord> {
    var i := IndexNamed(records, name);
    if i.Some? then records[..i.value] + records[i.value + 1..] else records
  }

  function RecordDelete(s: Source, name: string): Source {
    if s.life.stopping || !NameIsValid(name) then s
    else RequestRefresh(s.(records := WithoutFirst(s.records, name)), Reconcile)
  }

  function Normalize(names: seq<string>): (r: set<string>)
    ensures |r| <= MAX_NAMES && forall n :: n in r ==> NameIsValid(n)
  {
    if names == [] then {}
    else
      var before := Normalize(names[..|names| - 1]);
      var last := names[|names| - 1];
      if NameIsValid(last) && (last in before || |before| < MAX_NAMES) then before + {last} else before
  }

  function SetNames(s: Source, names: seq<string>, purpose: Purpose): Source {
    if s.life.stopping || Normalize(names) == s.names then s
    else
      var invalid := Invalidate(s.(names := Normalize(names)), purpose);
      if Live(s) then ScheduleRefresh(ClearRetry(invalid)) else invalid
  }

  function SetMutationActive(s: Source, active: bool): Source {
    if s.life.stopping then s else s.(purposes := s.purposes.(mutationActive := active))
  }

  function EnsureMonitor(s: Source, grants: Grants): Source {
    if !Live(s) then s
    else
      var e := EnsureMonitors(s, grants);
      var s1 := if e.changed || !e.ready then Invalidate(e.source, AutomaticPurpose(s)) else e.source;
      var s2 := if e.changed then ScheduleRefresh(s1) else s1;
      if !e.ready then ScheduleRetry(s2, AutomaticPurpose(s2)) else s2
  }

  /** Starting, and switching monitoring on, up to their last call, which is an
      ordinary `RequestRefresh`. */
  function BeginStart(s: Source, grants: Grants): Source {
    if s.life.started || s.life.stopping then s else EnsureMonitor(s.(life := s.life.(started := true)), grants)
  }

  function BeginEnable(s: Source, grants: Grants): Source {
    if s.life.enabled then s else EnsureMonitor(s.(life := s.life.(enabled := true)), grants)
  }

  function Start(s: Source, grants: Grants): Source {
    if s.life.started || s.life.stopping then s
    else if !s.life.enabled then s.(life := s.life.(started := true))
    else RequestRefresh(BeginStart(s, grants), Visible)
  }

  function Enable(s: Source, grants: Grants): Source {
    if s.life.enabled then s else RequestRefresh(BeginEnable(s, grants), Visible)
  }

  function Disable(s: Source): Source {
    if !s.life.enabled then s
    else s.(isFresh := false,
            timers := Timers(Off, s.timers.orphans, false, 0),
            monitors := Monitors(false, None),
            scan := Progress(s.scan.generation + 1, false, s.scan.running, false),
            purposes := Purposes(Reconcile, Reconcile, Reconcile, false, false),
            life := s.life.(enabled := false),
            epochs := s.epochs.(invalidations := s.epochs.invalidations + 1))
  }

  function Stop(s: Source): Source {
    if s.life.stopping then s
    else s.(isFresh := false,
            timers := s.timers.(debounce := Off, retry := false),
            monitors := Monitors(false, None),
            scan := s.scan.(pending := false, queued := false),
            life := Life(false, false, true),
            epochs := s.epochs.(invalidations := s.epochs.invalidations + 1))
  }

  function FireRetry(s: Source): Source {
    RequestRefresh(ClearRetry(s), s.purposes.retry)
  }

  function ScheduleMonitorRefresh(s: Source): Source {
    if !Live(s) then s else ScheduleRefresh(Invalidate(ClearRetry(s), AutomaticPurpose(s)))
  }

  /** A file notification; `removed` when it takes the monitor with it. */
  function FileChanged(s: Source, removed: bool): Source {
    if !Live(s) then s
    else ScheduleMonitorRefresh(if removed then s.(monitors := s.monitors.(file := None)) else s)
  }

  /** Whether one received datagram counts as a change. */
  predicate Noticed(s: Source, d: Datagram) {
    !s.isFresh || s.filter.None? || DatagramRelevant(s.filter.value, d)
  }

  datatype DrainEnd = Drained | LimitReached | Broken

  /** One dispatch of the link socket that received `batch`. */
  function LinksChanged(s: Source, batch: seq<Datagram>, end: DrainEnd): Source {
    if end == Broken then ScheduleMonitorRefresh(s.(monitors := s.monitors.(link := false)))
    else if end == LimitReached || (exists k | 0 <= k < |batch| :: Noticed(s, batch[k])) then ScheduleMonitorRefresh(s)
    else s
  }

  /** A scan that ended after monitoring was switched off is dropped. */
  function DropScan(s: Source): Source {
    s.(scan := s.scan.(running := false), purposes := s.purposes.(scan := Reconcile))
  }

  /** What a callback leaves of the refresh timer: an identifier armed meanwhile
      is forgotten, its timer is not. */
  function ForgetTimer(s: Source): Source {
    var t := s.timers;
    s.(timers := t.(debounce := Off, orphans := if t.debounce.Armed? then t.orphans + 1 else t.orphans))
  }

  function FirstNamed(records: seq<RuntimeRecord>, name: string): Option<RuntimeRecord> {
    var i := IndexNamed(records, name);
    if i.Some? then Some(records[i.value]) else None
  }

  function GetCached(s: Source, name: string): Option<RuntimeRecord> {
    if s.isFresh && NameIsValid(name) then FirstNamed(s.records, name) else None
  }
}
