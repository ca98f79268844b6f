/** The runtime source among everything that runs beside it: the kernel's link
    table and its notification queue, the journal directory and its
    notifications, the scan on its worker thread, the main loop's timers, and
    callers that re-enter through public operations.

    `Execute` is one step of this system, for every possible schedule; what holds in
    every state that any sequence of steps can reach is proved in `RuntimeSafety`. */
module RuntimeSystem {
  import opened Amneziawg
  import opened LinkIdentity
  import opened Refresh
  import opened RuntimeJournal
  import opened RuntimeSource

  // ------------------------------------------------------------------------
  // The world outside the process
  // ------------------------------------------------------------------------

  /** The journal directory: a name with no entry has no file, an entry without a
      marker is a file that does not hold a valid one. */
  type Journals = map<string, Option<RuntimeMarker>>

  /** `tables` follows the link table through the queued notifications: the table
      as known to whoever has read none of them first, the current one last. */
  datatype World = World(
    links: LinkTable,
    journals: Journals,
    queue: seq<Datagram>,
    tables: seq<LinkTable>,
    overflow: bool,
    fileEvents: nat)

  datatype MarkerRead = Absent | ValidMarker(marker: RuntimeMarker) | InvalidMarker | UnknownMarker

  function ReadOf(journals: Journals, name: string): MarkerRead {
    if name !in journals then Absent
    else if journals[name].Some? then ValidMarker(journals[name].value)
    else InvalidMarker
  }

  function TokenOf(read: MarkerRead): Option<string> {
    if read.ValidMarker? then Some(read.marker.token) else None
  }

  function IdentityFor(read: MarkerRead, name: string): Identity {
    Identity(name, TokenOf(read), if read.ValidMarker? then read.marker.ifindex else 0)
  }

  /** What a journal and one listing of the links make of a name. */
  function Verdict(read: MarkerRead, name: string, dump: seq<LinkRecord>): RuntimeRecord {
    var o := Observation(dump, name, TokenOf(read));
    RuntimeRecord(name,
                  Classify(!read.Absent?, if read.ValidMarker? then Some(read.marker) else None, Some(o)),
                  o.namedExists)
  }

  ghost predicate DatagramEffect(t: LinkTable, d: Datagram, t': LinkTable)
    decreases |d|
  {
    if d == [] then t' == t
    else exists mid :: TableValid(mid) && Effect(t, d[0], mid) && DatagramEffect(mid, d[1..], t')
  }

  function ValidKeys(journals: Journals): set<string> {
    set n | n in journals && NameIsValid(n)
  }

  // ------------------------------------------------------------------------
  // The scan in flight
  // ------------------------------------------------------------------------

  datatype Phase = Collecting | Snapshotting | Observing | Returned(ok: bool) | Publishing(ok: bool)

  datatype Task = Task(
    request: ScanRequest,
    names: set<string>,
    todo: set<string>,
    links: Option<seq<LinkRecord>>,
    identities: seq<Identity>,
    records: seq<RuntimeRecord>,
    complete: bool)

  datatype Flight = NoScan | InFlight(task: Task, phase: Phase)

  function NewTask(request: ScanRequest): Task {
    Task(request, {}, {}, None, [], [], true)
  }

  function ResultOf(task: Task): ScanResult {
    ScanResult(task.records, if task.complete then Some(FilterOf(task.identities, task.links)) else None,
               task.request.generation, task.complete)
  }

  datatype Listing = Missing | Trusted(listed: set<string>, ended: bool) | Unreadable

  function Collect(task: Task, listing: Listing, chosen: set<string>): Task {
    var wanted := task.request.previous + task.request.names + (if listing.Trusted? then listing.listed else {});
    task.(names := chosen, todo := chosen,
          complete := !listing.Unreadable? && (listing.Trusted? ==> listing.ended) && chosen == wanted)
  }

  function ObserveName(task: Task, name: string, read: MarkerRead): Task {
    var seen := !read.UnknownMarker? && task.links.Some?;
    var exists' := task.links.Some? && Observation(task.links.value, name, TokenOf(read)).namedExists;
    task.(todo := task.todo - {name},
          identities := task.identities + [IdentityFor(read, name)],
          records := task.records + [if seen then Verdict(read, name, task.links.value)
                                     else RuntimeRecord(name, Unknown, exists')],
          complete := task.complete && seen)
  }

  // ------------------------------------------------------------------------
  // The whole system
  // ------------------------------------------------------------------------

  /** A callback suspended in its notification while a scan is being prepared. */
  datatype Frame = NoFrame | TimerFrame(notified: bool) | PublishFrame(notified: bool)

  /** The listing a set of records rests on, the table it was taken from, and how
      many notifications still queued are older than it. */
  datatype Basis = Basis(dump: seq<LinkRecord>, origin: LinkTable, lead: nat)

  datatype System = System(src: Source, world: World, flight: Flight, frame: Frame, cache: Basis, scan: Basis)

  datatype Call =
    | CallRequestRefresh(purpose: Purpose)
    | CallPoll(purpose: Purpose)
    | CallRecordDelete(name: string)
    | CallSetNames(names: seq<string>, purpose: Purpose)
    | CallSetMutationActive(active: bool)
    | CallEnsureMonitor(grants: Grants)
    | CallBeginStart(grants: Grants)
    | CallBeginEnable(grants: Grants)
    | CallDisable
    | CallStop

  datatype Step =
    | Public(call: Call)
    | FireRefresh(orphan: bool, grants: Grants)
    | FinishFrame
    | FireRetryTimer
    | ScanReturned
    | PublishScan(grants: Grants, again: Grants)
    | FileEvent(journal: bool, removed: bool)
    | LinkEvents(count: nat, end: DrainEnd)
    | LinkChange(datagram: Datagram, table: LinkTable, lost: bool)
    | JournalChange(changed: Journals)
    | CollectNames(listing: Listing, chosen: set<string>)
    | ReadLinks(dump: Option<seq<LinkRecord>>)
    | ObserveOne(name: string, read: MarkerRead)
    | WorkerReturns(ok: bool)

  function Apply(s: Source, call: Call): Source {
    match call
    case CallRequestRefresh(p) => RequestRefresh(s, p)
    case CallPoll(p) => Poll(s, p)
    case CallRecordDelete(name) => RecordDelete(s, name)
    case CallSetNames(names, p) => SetNames(s, names, p)
    case CallSetMutationActive(active) => SetMutationActive(s, active)
    case CallEnsureMonitor(g) => EnsureMonitor(s, g)
    case CallBeginStart(g) => if s.life.enabled then BeginStart(s, g) else Start(s, g)
    case CallBeginEnable(g) => BeginEnable(s, g)
    case CallDisable => Disable(s)
    case CallStop => Stop(s)
  }

  function Min(a: nat, b: nat): nat {
    if a < b then a else b
  }

  /** Closing a monitor drops whatever it had not delivered. */
  function Sync(w: World, before: Source, after: Source): World {
    var w1 := if after.monitors.link then w else w.(queue := [], tables := [w.links], overflow := false);
    if after.monitors.file == before.monitors.file then w1 else w1.(fileEvents := 0)
  }

  function SetSource(sys: System, s: Source): System {
    var w := Sync(sys.world, sys.src, s);
    sys.(src := s, world := w,
         cache := sys.cache.(lead := Min(sys.cache.lead, |w.queue|)),
         scan := sys.scan.(lead := Min(sys.scan.lead, |w.queue|)))
  }

  ghost predicate MarkersValid(journals: Journals) {
    forall n :: n in journals && journals[n].Some? ==> MarkerFieldsAreValid(journals[n].value)
  }

  /** Steps the schedule may take now. World and worker steps are free; main-loop
      sources wait for a suspended callback; callers may re-enter one only while
      it notifies. A directory or journal is read as it is, unless a notification
      about it is still on its way: then anything may have been read. */
  ghost predicate Enabled(sys: System, step: Step) {
    var s, w := sys.src, sys.world;
    match step
    case Public(_) => sys.frame.NoFrame? || sys.frame.notified
    case FireRefresh(orphan, _) =>
      sys.frame.NoFrame? && if orphan then s.timers.orphans > 0 else s.timers.debounce.Armed?
    case FinishFrame => !sys.frame.NoFrame?
    case FireRetryTimer => sys.frame.NoFrame? && s.timers.retry
    case ScanReturned => sys.frame.NoFrame? && sys.flight.InFlight? && sys.flight.phase.Returned?
    case PublishScan(_, _) => sys.frame.NoFrame? && sys.flight.InFlight? && sys.flight.phase.Publishing?
    case FileEvent(journal, _) => sys.frame.NoFrame? && s.monitors.file.Some? && (journal ==> w.fileEvents > 0)
    case LinkEvents(count, end) =>
      && sys.frame.NoFrame? && s.monitors.link && count <= |w.queue| && count <= EVENT_DRAIN_LIMIT
      && (end == Drained ==> count == |w.queue|)
      && (w.overflow ==> end == Broken)
    case LinkChange(d, t, _) => TableValid(t) && DatagramEffect(w.links, d, t)
    case JournalChange(changed) => MarkersValid(changed)
    case CollectNames(listing, chosen) =>
      && sys.flight.InFlight? && sys.flight.phase.Collecting?
      && var request := sys.flight.task.request;
         var listed := if listing.Trusted? then listing.listed else {};
      && request.previous <= chosen <= request.previous + request.names + listed
      && |chosen| <= MAX_NAMES
      && (forall n :: n in listed ==> NameIsValid(n))
      && (w.fileEvents == 0 && (listing.Missing? || (listing.Trusted? && listing.ended)) ==>
            listed == ValidKeys(w.journals))
    case ReadLinks(dump) =>
      && sys.flight.InFlight? && sys.flight.phase.Snapshotting?
      && (dump.Some? ==> IsDump(dump.value, w.links))
    case ObserveOne(name, read) =>
      && sys.flight.InFlight? && sys.flight.phase.Observing? && name in sys.flight.task.todo
      && (w.fileEvents == 0 && !read.UnknownMarker? ==> read == ReadOf(w.journals, name))
    case WorkerReturns(ok) =>
      && sys.flight.InFlight? && !sys.flight.phase.Returned? && !sys.flight.phase.Publishing?
      && (ok ==> sys.flight.phase.Observing? && sys.flight.task.todo == {})
  }

  function ExecuteCall(sys: System, call: Call): System {
    var moved := SetSource(sys, Apply(sys.src, call));
    if call.CallStop? && sys.flight.InFlight? && sys.flight.phase.Publishing? then moved.(flight := NoScan) else moved
  }

  /** A refresh timer as its callback begins. */
  function TakenTimer(s: Source, orphan: bool): Source
    requires orphan ==> s.timers.orphans > 0
  {
    var t := s.timers;
    s.(timers := if orphan then t.(orphans := t.orphans - 1) else t.(debounce := Dispatching))
  }

  /** The refresh callback, `s` being the source with the timer taken. */
  function RefreshFrom(sys: System, s: Source, grants: Grants): System {
    if s.scan.running then SetSource(sys, ForgetTimer(s.(scan := s.scan.(queued := true))))
    else if CanStart(s) then
      SetSource(sys, PrepareScan(s, grants)).(frame := TimerFrame(PreparationNotifies(s, grants)))
    else SetSource(sys, ForgetTimer(s))
  }

  function ExecuteFinish(sys: System): System {
    var s := sys.src;
    var launched := if CanStart(s) then LaunchScan(s) else s;
    var ended := if sys.frame.TimerFrame? then ForgetTimer(launched) else EndPublication(launched);
    sys.(src := ended, frame := NoFrame,
         flight := if CanStart(s) then InFlight(NewTask(RequestOf(s)), Collecting) else sys.flight)
  }

  function ExecutePublish(sys: System, grants: Grants, again: Grants): System
    requires sys.flight.InFlight? && sys.flight.phase.Publishing?
  {
    var result := if sys.flight.phase.ok then Some(ResultOf(sys.flight.task)) else None;
    var e := RecheckMonitors(sys.src, grants, result);
    var settled := PublishResult(sys.src, grants, result);
    var closed := ClosePublication(settled);
    var based := sys.(flight := NoScan, cache := if Accepts(e.source, e.ready, result) then sys.scan else sys.cache);
    if Restarts(settled) && CanStart(closed) then
      SetSource(SetSource(based, closed), PrepareScan(closed, again))
      .(frame := PublishFrame(PreparationNotifies(closed, again)))
    else SetSource(based, EndPublication(closed))
  }

  /** The oldest `count` notifications read. */
  function Consume(sys: System, count: nat): System
    requires count <= |sys.world.queue| && |sys.world.tables| == |sys.world.queue| + 1
  {
    var w := sys.world;
    sys.(world := w.(queue := w.queue[count..], tables := w.tables[count..]),
         cache := sys.cache.(lead := if sys.cache.lead < count then 0 else sys.cache.lead - count),
         scan := sys.scan.(lead := if sys.scan.lead < count then 0 else sys.scan.lead - count))
  }

  function ExecuteLinkEvents(sys: System, count: nat, end: DrainEnd): System
    requires count <= |sys.world.queue| && |sys.world.tables| == |sys.world.queue| + 1
  {
    SetSource(Consume(sys, count), LinksChanged(sys.src, sys.world.queue[..count], end))
  }

  function ExecuteLinkChange(sys: System, d: Datagram, t: LinkTable, lost: bool): System
    requires |sys.world.tables| == |sys.world.queue| + 1
  {
    var w := sys.world;
    if !sys.src.monitors.link then sys.(world := w.(links := t, tables := [t]))
    else if lost || w.overflow then
      sys.(world := w.(links := t, overflow := true, tables := w.tables[|w.queue| := t]))
    else sys.(world := w.(links := t, queue := w.queue + [d], tables := w.tables + [t]))
  }

  function Execute(sys: System, step: Step): System
    requires Enabled(sys, step) && |sys.world.tables| == |sys.world.queue| + 1
  {
    var s, w := sys.src, sys.world;
    match step
    case Public(call) => ExecuteCall(sys, call)
    case FireRefresh(orphan, g) => RefreshFrom(sys, TakenTimer(s, orphan), g)
    case FinishFrame => ExecuteFinish(sys)
    case FireRetryTimer => SetSource(sys, FireRetry(s))
    case ScanReturned =>
      if Live(s) then sys.(flight := InFlight(sys.flight.task, Publishing(sys.flight.phase.ok)))
      else sys.(src := DropScan(s), flight := NoScan)
    case PublishScan(g, again) => ExecutePublish(sys, g, again)
    case FileEvent(journal, removed) =>
      var taken := sys.(world := w.(fileEvents := if journal then w.fileEvents - 1 else w.fileEvents));
      SetSource(taken, FileChanged(s, removed))
    case LinkEvents(count, end) => ExecuteLinkEvents(sys, count, end)
    case LinkChange(d, t, lost) => ExecuteLinkChange(sys, d, t, lost)
    case JournalChange(changed) =>
      sys.(world := w.(journals := changed, fileEvents := if s.monitors.file.Some? then w.fileEvents + 1 else 0))
    case CollectNames(listing, chosen) =>
      sys.(flight := InFlight(Collect(sys.flight.task, listing, chosen), Snapshotting))
    case ReadLinks(dump) =>
      sys.(flight := InFlight(sys.flight.task.(links := dump, complete := sys.flight.task.complete && dump.Some?),
                              Observing),
           scan := Basis(if dump.Some? then dump.value else [], w.links, |w.queue|))
    case ObserveOne(name, read) =>
      sys.(flight := InFlight(ObserveName(sys.flight.task, name, read), Observing))
    case WorkerReturns(ok) => sys.(flight := InFlight(sys.flight.task, Returned(ok)))
  }
}
