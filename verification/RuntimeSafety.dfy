/** What every step of the runtime system keeps, and what follows in every
    reachable state: cache agreement, the freshness handshake, no lost refresh and
    conservation of sessions. */
module RuntimeSafety {
  import opened Amneziawg
  import opened LinkIdentity
  import opened Refresh
  import opened RuntimeJournal
  import opened RuntimeSource
  import opened RuntimeSystem

  // ------------------------------------------------------------------------
  // The invariant
  // ------------------------------------------------------------------------

  /** The running scan would still be accepted, as far as its generation goes. */
  predicate Current(sys: System) {
    && sys.flight.InFlight? && Live(sys.src) && !sys.src.scan.pending
    && sys.flight.task.request.generation == sys.src.scan.generation
  }

  predicate Watched(s: Source) {
    s.monitors.link && s.monitors.file.Some?
  }

  predicate Intact(w: World) {
    !w.overflow && w.fileEvents == 0
  }

  /** Flags, timers and monitors. */
  predicate ControlInv(sys: System) {
    var s := sys.src;
    && (Live(s) && s.scan.pending ==>
          s.timers.debounce.Armed? || s.timers.retry || (s.scan.running && s.scan.queued) || !sys.frame.NoFrame?)
    && (!Live(s) ==>
          s.timers.debounce.Off? && !s.timers.retry && !s.monitors.link && s.monitors.file.None? && !s.isFresh)
    && (s.isFresh ==> Watched(s))
    && (s.timers.debounce.Dispatching? ==> sys.frame.TimerFrame?)
    && (!s.life.stopping ==> (s.scan.running <==> sys.flight.InFlight?))
    && (!sys.frame.NoFrame? ==> sys.flight.NoScan?)
    && (s.scan.running && s.scan.pending ==> !s.isFresh)
    && (sys.flight.InFlight? ==> sys.flight.task.request.generation <= s.scan.generation)
    && (s.isFresh ==> s.epochs.cache == s.epochs.invalidations)
    && (Current(sys) ==> s.epochs.scan == s.epochs.invalidations && sys.flight.task.request == RequestOf(s))
  }

  predicate TaskOk(task: Task, phase: Phase) {
    && (forall n :: n in task.request.previous + task.request.names ==> NameIsValid(n))
    && (forall n :: n in task.names ==> NameIsValid(n))
    && |task.names| <= MAX_NAMES
    && |task.identities| == |task.records|
    && DistinctNames(task.records)
    && NamesOf(task.records) + task.todo == task.names
    && NamesOf(task.records) !! task.todo
    && (!phase.Collecting? && !phase.Returned? && !phase.Publishing? ==> task.request.previous <= task.names)
    && (phase.Observing? && task.complete ==> task.links.Some?)
    && (phase.Collecting? || phase.Snapshotting? ==> task.records == [] && task.links.None?)
    && ((phase.Returned? || phase.Publishing?) && phase.ok ==>
          task.todo == {} && task.request.previous <= task.names && (task.complete ==> task.links.Some?))
  }

  /** Sizes and names of the record table and of the scan in flight. */
  predicate TableInv(sys: System) {
    && RecordsOk(sys.src.records)
    && (forall n :: n in sys.src.names ==> NameIsValid(n))
    && (sys.flight.InFlight? ==> TaskOk(sys.flight.task, sys.flight.phase))
  }

  ghost predicate WorldInv(sys: System) {
    var w := sys.world;
    && |w.tables| == |w.queue| + 1 && w.tables[|w.queue|] == w.links
    && (forall k | 0 <= k < |w.tables| :: TableValid(w.tables[k]))
    && MarkersValid(w.journals)
    && (!w.overflow ==> forall k | 0 <= k < |w.queue| :: DatagramEffect(w.tables[k], w.queue[k], w.tables[k + 1]))
    && (!sys.src.monitors.link ==> w.queue == [] && !w.overflow)
    && (sys.src.monitors.file.None? ==> w.fileEvents == 0)
    && sys.cache.lead <= |w.queue| && sys.scan.lead <= |w.queue|
  }

  ghost predicate BasisOk(b: Basis) {
    TableValid(b.origin) && IsDump(b.dump, b.origin)
  }

  /** `records` are what the journals and the listing make of their names. */
  ghost predicate AllVerdicts(records: seq<RuntimeRecord>, journals: Journals, dump: seq<LinkRecord>) {
    forall i | 0 <= i < |records| :: records[i] == Verdict(ReadOf(journals, records[i].name), records[i].name, dump)
  }

  /** The filter knows every recorded name and the token of its journal. */
  ghost predicate Knows(f: LinkFilter, records: seq<RuntimeRecord>, journals: Journals) {
    forall n :: n in NamesOf(records) ==>
      n in f.names
      && (TokenOf(ReadOf(journals, n)).Some? ==> LinkAlias(TokenOf(ReadOf(journals, n)).value) in f.aliases)
  }

  /** A complete, fresh cache agrees with the journals and with the link table as
      of the notifications its filter has judged, or of its own listing if that is
      later. */
  ghost predicate CacheInv(sys: System) {
    var s, w := sys.src, sys.world;
    s.isFresh && s.filter.Some? && Intact(w) && |w.tables| == |w.queue| + 1 && sys.cache.lead <= |w.queue| ==>
      && BasisOk(sys.cache)
      && Tracked(s.filter.value, sys.cache.origin) == Tracked(s.filter.value, w.tables[sys.cache.lead])
      && Covers(s.filter.value, w.tables[sys.cache.lead])
      && AllVerdicts(s.records, w.journals, sys.cache.dump)
      && Knows(s.filter.value, s.records, w.journals)
      && s.names + ValidKeys(w.journals) <= NamesOf(s.records)
  }

  /** The table has not moved since the scan's listing, except in ways the filter
      of a still fresh cache ignores. */
  ghost predicate Follows(sys: System)
    requires |sys.world.tables| == |sys.world.queue| + 1 && sys.scan.lead <= |sys.world.queue|
  {
    var s, now := sys.src, sys.world.tables[sys.scan.lead];
    if s.isFresh && s.filter.Some? then
      sys.cache.lead <= sys.scan.lead && Tracked(s.filter.value, sys.scan.origin) == Tracked(s.filter.value, now)
    else sys.scan.origin == now
  }

  predicate GaveUp(phase: Phase) {
    (phase.Returned? || phase.Publishing?) && !phase.ok
  }

  /** What a complete scan in flight has gathered agrees with the journals and
      with its own listing. */
  ghost predicate ScanInv(sys: System) {
    var s, w := sys.src, sys.world;
    Current(sys) && Watched(s) && Intact(w) && sys.flight.task.complete && !GaveUp(sys.flight.phase)
    && |w.tables| == |w.queue| + 1 && sys.scan.lead <= |w.queue|
    && |sys.flight.task.identities| == |sys.flight.task.records| ==>
      var task := sys.flight.task;
      && (!sys.flight.phase.Collecting? ==>
            s.names + ValidKeys(w.journals) <= task.names <= NamesOf(s.records) + s.names + ValidKeys(w.journals))
      && (task.links.Some? ==>
            && sys.scan.dump == task.links.value && BasisOk(sys.scan) && Follows(sys)
            && AllVerdicts(task.records, w.journals, task.links.value)
            && (forall i | 0 <= i < |task.records| ::
                  task.identities[i] == IdentityFor(ReadOf(w.journals, task.records[i].name), task.records[i].name)))
  }

  ghost predicate Inv(sys: System) {
    ControlInv(sys) && TableInv(sys) && WorldInv(sys) && CacheInv(sys) && ScanInv(sys)
  }

  // ------------------------------------------------------------------------
  // Lemmas about the parts
  // ------------------------------------------------------------------------

  lemma {:induction false} IrrelevantDatagram(f: LinkFilter, t: LinkTable, d: Datagram, t': LinkTable)
    requires TableValid(t) && TableValid(t') && DatagramEffect(t, d, t') && Covers(f, t)
    requires forall k | 0 <= k < |d| :: !MessageRelevant(f, d[k])
    ensures Tracked(f, t') == Tracked(f, t) && Covers(f, t')
    decreases |d|
  {
    if d != [] {
      var mid :| TableValid(mid) && Effect(t, d[0], mid) && DatagramEffect(mid, d[1..], t');
      IrrelevantStep(f, t, d[0], mid);
      IrrelevantDatagram(f, mid, d[1..], t');
    }
  }

  /** An irrelevant datagram keeps what a larger filter tracks. */
  lemma TrackedBySmaller(f: LinkFilter, g: LinkFilter, t1: LinkTable, t2: LinkTable)
    requires g.names <= f.names && g.aliases <= f.aliases && Tracked(f, t1) == Tracked(f, t2)
    ensures Tracked(g, t1) == Tracked(g, t2)
  {
    forall i | i in Tracked(g, t1) ensures i in Tracked(g, t2) && t1[i] == t2[i] {
      assert Tracked(f, t1)[i] == t1[i] && Tracked(f, t2)[i] == t2[i];
    }
    forall i | i in Tracked(g, t2) ensures i in Tracked(g, t1) {
      assert Tracked(f, t2)[i] == t2[i] && Tracked(f, t1)[i] == t1[i];
    }
  }

  lemma CoversFromTracked(f: LinkFilter, t1: LinkTable, t2: LinkTable)
    requires Covers(f, t1) && Tracked(f, t1) == Tracked(f, t2)
    ensures Covers(f, t2)
  {
    forall i | i in t2 && Tracks(f, t2[i]) ensures i in f.indices {
      assert i in Tracked(f, t2) && i in Tracked(f, t1);
    }
  }

  /** The filter of a scan knows nothing but the identities it was built from. */
  lemma {:induction false} FilterOfOnly(identities: seq<Identity>, links: Option<seq<LinkRecord>>, names: set<string>,
                                        aliases: set<string>)
    requires forall k | 0 <= k < |identities| ::
               identities[k].name in names
               && (identities[k].token.Some? ==> LinkAlias(identities[k].token.value) in aliases)
    ensures FilterOf(identities, links).names <= names && FilterOf(identities, links).aliases <= aliases
  {
    if identities != [] {
      FilterOfOnly(identities[..|identities| - 1], links, names, aliases);
    }
  }

  // ------------------------------------------------------------------------
  // Steps that only move the source
  // ------------------------------------------------------------------------

  /** A change of the source that publishes nothing: whatever is fresh, or still
      acceptable, afterwards was so before, over the same data and monitors. */
  predicate Harmless(sys: System, s': Source) {
    var s := sys.src;
    && (s'.isFresh || (Current(sys.(src := s')) && Watched(s')) ==>
          && s'.isFresh == s.isFresh && s'.filter == s.filter && s'.records == s.records && s'.names == s.names
          && s'.monitors.link && s.monitors.link && s'.monitors.file == s.monitors.file)
    && (Current(sys.(src := s')) && Watched(s') ==> Current(sys))
  }

  lemma SetSourceKeepsWorld(sys: System, s': Source)
    requires WorldInv(sys)
    ensures WorldInv(SetSource(sys, s'))
  {
  }

  lemma HarmlessKeepsFacts(sys: System, s': Source)
    requires WorldInv(sys) && CacheInv(sys) && ScanInv(sys) && Harmless(sys, s')
    ensures CacheInv(SetSource(sys, s')) && ScanInv(SetSource(sys, s'))
  {
    var after := SetSource(sys, s');
    if s'.isFresh || (Current(after) && Watched(s')) {
      assert after.world == sys.world && after.cache == sys.cache && after.scan == sys.scan;
    }
  }

  predicate MovesOnly(sys: System, s': Source) {
    ControlInv(sys.(src := s')) && Harmless(sys, s')
  }

  lemma MoveKeeps(sys: System, s': Source)
    requires Inv(sys) && MovesOnly(sys, s')
    requires RecordsOk(s'.records) && forall n :: n in s'.names ==> NameIsValid(n)
    ensures Inv(SetSource(sys, s'))
  {
    SetSourceKeepsWorld(sys, s');
    HarmlessKeepsFacts(sys, s');
  }

  lemma WithoutFirstNames(records: seq<RuntimeRecord>, name: string)
    requires RecordsOk(records)
    ensures RecordsOk(WithoutFirst(records, name))
  {
    var r := WithoutFirst(records, name);
    assert forall i | 0 <= i < |r| :: r[i].name in NamesOf(records);
  }

  /** A live source that was just invalidated and still has something to bring the
      next scan about. */
  predicate Invalidated(sys: System, s': Source) {
    var s := sys.src;
    && Live(s') && s'.scan.pending && !s'.isFresh
    && (s'.timers.debounce.Armed? || s'.timers.retry || (s'.scan.running && s'.scan.queued) || !sys.frame.NoFrame?)
    && (s'.timers.debounce.Dispatching? ==> sys.frame.TimerFrame?)
    && s'.scan.running == s.scan.running && s'.scan.generation >= s.scan.generation && !s.life.stopping
  }

  lemma InvalidatedMoves(sys: System, s': Source)
    requires ControlInv(sys) && Invalidated(sys, s')
    ensures MovesOnly(sys, s')
  {
  }

  lemma RequestMoves(sys: System, purpose: Purpose)
    requires ControlInv(sys)
    ensures MovesOnly(sys, RequestRefresh(sys.src, purpose))
  {
  }

  lemma RetryMoves(sys: System)
    requires ControlInv(sys)
    ensures MovesOnly(sys, FireRetry(sys.src))
  {
  }

  lemma PollMoves(sys: System, purpose: Purpose)
    requires ControlInv(sys)
    ensures MovesOnly(sys, Poll(sys.src, purpose))
  {
  }

  lemma DeleteMoves(sys: System, name: string)
    requires ControlInv(sys)
    ensures MovesOnly(sys, RecordDelete(sys.src, name))
  {
    hide WithoutFirst, NameIsValid;
    if Live(sys.src) && NameIsValid(name) {
      InvalidatedMoves(sys, RecordDelete(sys.src, name));
    }
  }

  lemma SetNamesMoves(sys: System, names: seq<string>, purpose: Purpose)
    requires ControlInv(sys)
    ensures MovesOnly(sys, SetNames(sys.src, names, purpose))
  {
    if Live(sys.src) && Normalize(names) != sys.src.names {
      InvalidatedMoves(sys, SetNames(sys.src, names, purpose));
    }
  }

  lemma SteadyMonitors(s: Source, grants: Grants)
    ensures var e := EnsureMonitors(s, grants);
            !e.changed && e.ready ==> e.source == s && Watched(s)
  {
  }

  lemma EnsureInvalidates(sys: System, s: Source, grants: Grants)
    requires Live(s) && s.scan.running == sys.src.scan.running && s.scan.generation == sys.src.scan.generation
    requires !sys.src.life.stopping
    requires s.timers.debounce.Dispatching? ==> sys.frame.TimerFrame?
    requires EnsureMonitors(s, grants).changed || !EnsureMonitors(s, grants).ready
    ensures Invalidated(sys, EnsureMonitor(s, grants))
  {
    var e := EnsureMonitors(s, grants);
    var s1 := Invalidate(e.source, AutomaticPurpose(s));
    InvalidateFields(e.source, AutomaticPurpose(s));
    if e.changed {
      ScheduleFields(s1);
    }
    var s2 := if e.changed then ScheduleRefresh(s1) else s1;
    if !e.ready {
      RetryFields(s2, AutomaticPurpose(s2));
    }
  }

  /** The fields two sources must share for all scheduling purposes. */
  predicate SameCourse(s: Source, s': Source) {
    && s'.life.started == s.life.started && s'.life.stopping == s.life.stopping && s'.life.enabled == s.life.enabled
    && s'.scan.running == s.scan.running && s'.scan.queued == s.scan.queued
  }

  lemma InvalidateFields(s: Source, purpose: Purpose)
    ensures var s' := Invalidate(s, purpose);
            && SameCourse(s, s') && s'.timers.debounce == s.timers.debounce && s'.timers.retry == s.timers.retry
            && s'.scan.pending && !s'.isFresh && s'.scan.generation >= s.scan.generation
  {
  }

  lemma ScheduleFields(s: Source)
    requires Live(s)
    ensures var s' := ScheduleRefresh(s);
            && SameCourse(s, s') && s'.timers.retry == s.timers.retry && s'.scan.pending == s.scan.pending
            && s'.isFresh == s.isFresh
            && s'.scan.generation == s.scan.generation
            && s'.timers.debounce == if s.timers.debounce.Off? then Armed else s.timers.debounce
  {
  }

  lemma RetryFields(s: Source, purpose: Purpose)
    requires Live(s)
    ensures var s' := ScheduleRetry(s, purpose);
            && SameCourse(s, s') && s'.timers.retry && s'.scan.pending == s.scan.pending && s'.isFresh == s.isFresh
            && s'.scan.generation == s.scan.generation && s'.timers.debounce == s.timers.debounce
  {
  }

  lemma EnsureMonitorMoves(sys: System, grants: Grants)
    requires ControlInv(sys)
    ensures MovesOnly(sys, EnsureMonitor(sys.src, grants))
  {
    SteadyMonitors(sys.src, grants);
    var e := EnsureMonitors(sys.src, grants);
    if Live(sys.src) && (e.changed || !e.ready) {
      EnsureInvalidates(sys, sys.src, grants);
      InvalidatedMoves(sys, EnsureMonitor(sys.src, grants));
    }
  }

  /** Nothing is watched before a source is live, so going live invalidates. */
  lemma GoingLiveMoves(sys: System, s: Source, grants: Grants)
    requires ControlInv(sys) && !Live(sys.src)
    requires s == sys.src.(life := sys.src.life.(started := true))
             || s == sys.src.(life := sys.src.life.(enabled := true))
    ensures MovesOnly(sys, EnsureMonitor(s, grants))
  {
    if Live(s) {
      EnsureInvalidates(sys, s, grants);
      InvalidatedMoves(sys, EnsureMonitor(s, grants));
    }
  }

  lemma BeginStartMoves(sys: System, grants: Grants)
    requires ControlInv(sys)
    ensures MovesOnly(sys, if sys.src.life.enabled then BeginStart(sys.src, grants) else Start(sys.src, grants))
  {
    if !sys.src.life.started && !sys.src.life.stopping && sys.src.life.enabled {
      GoingLiveMoves(sys, sys.src.(life := sys.src.life.(started := true)), grants);
    }
  }

  lemma BeginEnableMoves(sys: System, grants: Grants)
    requires ControlInv(sys)
    ensures MovesOnly(sys, BeginEnable(sys.src, grants))
  {
    if !sys.src.life.enabled {
      GoingLiveMoves(sys, sys.src.(life := sys.src.life.(enabled := true)), grants);
    }
  }

  lemma DisableMoves(sys: System)
    requires ControlInv(sys)
    ensures MovesOnly(sys, Disable(sys.src))
  {
  }

  lemma StopKeeps(sys: System)
    requires Inv(sys)
    ensures Inv(ExecuteCall(sys, CallStop))
  {
    SetSourceKeepsWorld(sys, Stop(sys.src));
    HarmlessKeepsFacts(sys, Stop(sys.src));
  }

  /** A prepared scan leaves the source fresh only if it was and nothing moved. */
  lemma PreparedSource(s: Source, grants: Grants)
    requires CanStart(s)
    ensures var p := PrepareScan(s, grants);
            && CanStart(p) && p.scan.generation == s.scan.generation && p.life.stopping == s.life.stopping
            && p.timers.debounce == s.timers.debounce && p.records == s.records && p.names == s.names
            && (p.isFresh ==> p == s)
  {
    SteadyMonitors(s, grants);
  }

  lemma PrepareKeeps(sys: System, grants: Grants)
    requires Inv(sys) && CanStart(sys.src) && !sys.frame.NoFrame?
    ensures Inv(SetSource(sys, PrepareScan(sys.src, grants)))
  {
    PreparedSource(sys.src, grants);
    MoveKeeps(sys, PrepareScan(sys.src, grants));
  }

  /** A refresh timer whose callback has begun. */
  predicate TimerTaken(sys: System, s: Source) {
    && sys.frame.NoFrame? && s == sys.src.(timers := s.timers)
    && s.timers.retry == sys.src.timers.retry
    && (s.timers.debounce.Dispatching? || s.timers.debounce == sys.src.timers.debounce)
  }

  lemma RefreshWaitsMoves(sys: System, s: Source)
    requires ControlInv(sys) && TimerTaken(sys, s) && s.scan.running
    ensures MovesOnly(sys, ForgetTimer(s.(scan := s.scan.(queued := true))))
  {
  }

  lemma RefreshIdleMoves(sys: System, s: Source)
    requires ControlInv(sys) && TimerTaken(sys, s) && !s.scan.running && !CanStart(s)
    ensures MovesOnly(sys, ForgetTimer(s))
  {
  }

  lemma RefreshKeeps(sys: System, s: Source, grants: Grants)
    requires Inv(sys) && TimerTaken(sys, s)
    ensures Inv(RefreshFrom(sys, s, grants))
  {
    hide MovesOnly, PrepareScan, PreparationNotifies;
    if s.scan.running {
      RefreshWaitsMoves(sys, s);
      MoveKeeps(sys, ForgetTimer(s.(scan := s.scan.(queued := true))));
    } else if CanStart(s) {
      PrepareKeeps(sys.(src := s, frame := TimerFrame(PreparationNotifies(s, grants))), grants);
    } else {
      RefreshIdleMoves(sys, s);
      MoveKeeps(sys, ForgetTimer(s));
    }
  }

  lemma FinishControl(sys: System)
    requires ControlInv(sys) && Enabled(sys, FinishFrame)
    ensures ControlInv(ExecuteFinish(sys))
  {
  }

  lemma FinishTable(sys: System)
    requires TableInv(sys) && Enabled(sys, FinishFrame)
    ensures TableInv(ExecuteFinish(sys))
  {
    forall n | n in Sessions(sys.src.records) ensures NameIsValid(n) {
      assert n in NamesOf(sys.src.records);
    }
  }

  lemma FinishFacts(sys: System)
    requires Inv(sys) && Enabled(sys, FinishFrame)
    ensures var after := ExecuteFinish(sys); WorldInv(after) && CacheInv(after) && ScanInv(after)
  {
    hide TableValid, DatagramEffect, BasisOk, AllVerdicts, Knows, Covers, Tracked, ValidKeys, NamesOf, MarkersValid,
         TaskOk;
  }

  lemma FinishKeeps(sys: System)
    requires Inv(sys) && Enabled(sys, FinishFrame)
    ensures Inv(ExecuteFinish(sys))
  {
    FinishControl(sys);
    FinishTable(sys);
    FinishFacts(sys);
  }

  // ------------------------------------------------------------------------
  // Publication
  // ------------------------------------------------------------------------

  lemma {:induction false} CarriedNames(previous: seq<RuntimeRecord>, found: seq<RuntimeRecord>)
    requires RecordsOk(previous)
    ensures var r := CarriedSessions(previous, found);
            && |r| <= |previous| && DistinctNames(r) && NamesOf(r) == Sessions(previous)
  {
    if previous != [] {
      var before, last := previous[..|previous| - 1], previous[|previous| - 1];
      assert NamesOf(previous) == NamesOf(before) + {last.name};
      CarriedNames(before, found);
      var r := CarriedSessions(before, found);
      assert last.name !in Sessions(before);
      assert Sessions(previous) == Sessions(before) + if IdentifiesSession(last) then {last.name} else {};
      forall i | 0 <= i < |r| ensures r[i].name != last.name {
        assert r[i].name in NamesOf(r);
      }
      NamesOfSnoc(r, Carried(last, Observed(found, last.name)));
    }
  }

  lemma {:induction false} WithNewNames(base: seq<RuntimeRecord>, found: seq<RuntimeRecord>)
    requires |base| <= MAX_NAMES && DistinctNames(base)
    ensures var r := WithNew(base, found);
            DistinctNames(r) && NamesOf(base) <= NamesOf(r) <= NamesOf(base) + NamesOf(found)
  {
    if found != [] {
      var before, last := found[..|found| - 1], found[|found| - 1];
      assert NamesOf(found) == NamesOf(before) + {last.name};
      WithNewNames(base, before);
      var r := WithNew(base, before);
      if last.name !in NamesOf(r) {
        assert forall i | 0 <= i < |r| :: r[i].name in NamesOf(r);
        NamesOfSnoc(r, last);
      }
    }
  }

  /** Publication never loses a session, never repeats a name and never outgrows
      the table, whether or not the scan was complete. */
  lemma ReconcileKeepsSessions(previous: seq<RuntimeRecord>, result: ScanResult)
    requires RecordsOk(previous) && RecordsOk(result.records)
    requires result.complete ==> Sessions(previous) <= NamesOf(result.records)
    ensures var r := ReconcileRecords(previous, result);
            RecordsOk(r) && Sessions(previous) <= NamesOf(r) <= NamesOf(previous) + NamesOf(result.records)
  {
    if !result.complete {
      CarriedNames(previous, result.records);
      WithNewNames(CarriedSessions(previous, result.records), result.records);
      assert Sessions(previous) <= NamesOf(previous);
    }
  }

  function Ended(s: Source): Source {
    s.(scan := s.scan.(running := false))
  }

  /** A scan is believed only when the monitors had been standing all along. */
  lemma AcceptedSource(s: Source, grants: Grants, result: Option<ScanResult>)
    ensures var e := RecheckMonitors(s, grants, result);
            && Live(e.source) == Live(s)
            && (Accepts(e.source, e.ready, result) ==>
                  Watched(s) && PublishResult(s, grants, result) == Accept(Ended(s), result.value))
  {
    SteadyMonitors(Ended(s), grants);
  }

  lemma AcceptFields(s: Source, result: ScanResult)
    requires Live(s)
    ensures var p := Accept(s, result);
            && p.scan == s.scan && p.life == s.life && p.monitors == s.monitors && p.names == s.names
            && p.timers.debounce == s.timers.debounce && p.isFresh && p.filter == result.filter
            && p.records == ReconcileRecords(s.records, result)
            && p.epochs == s.epochs.(cache := s.epochs.scan)
            && (result.complete ==> !p.timers.retry) && (!result.complete ==> p.timers.retry)
  {
  }

  /** What a scan that is not believed leaves behind. */
  predicate Rejected(s: Source, p: Source) {
    && Live(p) && p.life == s.life && !p.scan.running && p.scan.generation >= s.scan.generation
    && p.timers.debounce == s.timers.debounce && p.records == s.records && p.names == s.names
    && (p.scan.pending ==>
          p.timers.retry || p.scan.queued
          || (s.scan.pending && p.timers.retry == s.timers.retry && p.scan.queued == s.scan.queued))
    && (p.isFresh ==>
          s.isFresh && p.filter == s.filter && p.epochs == s.epochs && p.monitors == s.monitors
          && p.scan == s.scan.(running := false))
  }

  lemma RecheckFields(s: Source, grants: Grants, result: Option<ScanResult>)
    requires Live(s)
    ensures var e := RecheckMonitors(s, grants, result);
            Rejected(s, e.source) || (!e.ready && Rejected(s, ScheduleRetry(e.source, s.purposes.scan)))
  {
    var e := EnsureMonitors(Ended(s), grants);
    SteadyMonitors(Ended(s), grants);
    if e.changed || !e.ready {
      InvalidateFields(e.source, s.purposes.scan);
      var invalid := Invalidate(e.source, s.purposes.scan);
      var r := if e.changed then invalid.(scan := invalid.scan.(queued := true)) else invalid;
      if e.changed {
        assert Rejected(s, r);
      } else {
        RetryFields(r, s.purposes.scan);
      }
    } else if result.None? && !s.scan.pending {
      InvalidateFields(e.source, s.purposes.scan);
      RetryFields(Invalidate(e.source, s.purposes.scan), s.purposes.scan);
    }
  }

  lemma RejectedSource(s: Source, grants: Grants, result: Option<ScanResult>)
    requires Live(s)
    requires var e := RecheckMonitors(s, grants, result); !Accepts(e.source, e.ready, result)
    ensures Rejected(s, PublishResult(s, grants, result))
  {
    RecheckFields(s, grants, result);
    var e := RecheckMonitors(s, grants, result);
    if !e.ready {
      RetryFields(e.source, s.purposes.scan);
    }
  }

  function ResultFor(sys: System): Option<ScanResult>
    requires sys.flight.InFlight? && sys.flight.phase.Publishing?
  {
    if sys.flight.phase.ok then Some(ResultOf(sys.flight.task)) else None
  }

  /** Identities read from the journals are known to a filter that already knows
      the recorded names. */
  lemma KnownIdentities(f: LinkFilter, records: seq<RuntimeRecord>, journals: Journals, task: Task)
    requires Knows(f, records, journals) && NamesOf(task.records) <= NamesOf(records)
    requires |task.identities| == |task.records|
    requires forall i | 0 <= i < |task.records| ::
               task.identities[i] == IdentityFor(ReadOf(journals, task.records[i].name), task.records[i].name)
    ensures FilterOf(task.identities, task.links).names <= f.names
    ensures FilterOf(task.identities, task.links).aliases <= f.aliases
  {
    forall k | 0 <= k < |task.identities|
      ensures task.identities[k].name in f.names
      ensures task.identities[k].token.Some? ==> LinkAlias(task.identities[k].token.value) in f.aliases
    {
      assert task.records[k].name in NamesOf(task.records);
    }
    FilterOfOnly(task.identities, task.links, f.names, f.aliases);
  }

  lemma FilterKnowsRecords(records: seq<RuntimeRecord>, journals: Journals, task: Task)
    requires records == task.records && |task.identities| == |task.records|
    requires forall i | 0 <= i < |task.records| ::
               task.identities[i] == IdentityFor(ReadOf(journals, task.records[i].name), task.records[i].name)
    ensures Knows(FilterOf(task.identities, task.links), records, journals)
  {
    var g := FilterOf(task.identities, task.links);
    forall n | n in NamesOf(records)
      ensures n in g.names
      ensures TokenOf(ReadOf(journals, n)).Some? ==> LinkAlias(TokenOf(ReadOf(journals, n)).value) in g.aliases
    {
      var i :| 0 <= i < |records| && records[i].name == n;
      FilterOfKnows(task.identities, task.links, i);
    }
  }

  /** The basis of an accepted scan is as good for its own filter as it was for
      the filter that watched over it. */
  lemma ScanBasis(sys: System)
    requires WorldInv(sys) && TableInv(sys) && CacheInv(sys) && ScanInv(sys)
    requires Current(sys) && Watched(sys.src) && Intact(sys.world)
    requires sys.flight.phase == Publishing(true) && sys.flight.task.complete
    ensures var g, now := FilterOf(sys.flight.task.identities, sys.flight.task.links), sys.world.tables[sys.scan.lead];
            Tracked(g, sys.scan.origin) == Tracked(g, now) && Covers(g, now)
  {
    var task, s, now := sys.flight.task, sys.src, sys.world.tables[sys.scan.lead];
    var g := FilterOf(task.identities, task.links);
    FilterOfCovers(task.identities, task.links.value, sys.scan.origin);
    if s.isFresh && s.filter.Some? {
      KnownIdentities(s.filter.value, s.records, sys.world.journals, task);
      TrackedBySmaller(s.filter.value, g, sys.scan.origin, now);
    }
    CoversFromTracked(g, sys.scan.origin, now);
  }

  lemma AcceptedCache(sys: System, s': Source)
    requires WorldInv(sys) && TableInv(sys) && CacheInv(sys) && ScanInv(sys)
    requires Current(sys) && Watched(sys.src) && sys.flight.phase == Publishing(true)
    requires s'.names == sys.src.names && s'.filter == ResultOf(sys.flight.task).filter
    requires s'.records == ReconcileRecords(sys.src.records, ResultOf(sys.flight.task))
    ensures CacheInv(sys.(src := s', flight := NoScan, cache := sys.scan))
  {
    if sys.flight.task.complete && Intact(sys.world) {
      ScanBasis(sys);
      FilterKnowsRecords(s'.records, sys.world.journals, sys.flight.task);
    }
  }

  /** The control invariant after a publication that left `p`. */
  predicate ClosesWell(sys: System, p: Source) {
    var closed := ClosePublication(p);
    && (forall n :: ControlInv(sys.(src := closed, flight := NoScan, frame := PublishFrame(n))))
    && (!Restarts(p) ==> ControlInv(sys.(src := EndPublication(closed), flight := NoScan)))
    && (Restarts(p) ==> CanStart(closed))
  }

  lemma DroppedCloses(sys: System)
    requires ControlInv(sys) && sys.frame.NoFrame? && !Live(sys.src)
    ensures ClosesWell(sys, Ended(sys.src))
  {
  }

  lemma RejectedCloses(sys: System, p: Source)
    requires ControlInv(sys) && sys.frame.NoFrame? && Live(sys.src) && Rejected(sys.src, p)
    ensures ClosesWell(sys, p)
  {
  }

  lemma AcceptedCloses(sys: System, p: Source)
    requires ControlInv(sys) && sys.frame.NoFrame? && Current(sys) && Watched(sys.src)
    requires p.life == sys.src.life && p.monitors == sys.src.monitors && p.timers.debounce == sys.src.timers.debounce
    requires p.scan == sys.src.scan.(running := false) && p.epochs == sys.src.epochs.(cache := sys.src.epochs.scan)
    ensures ClosesWell(sys, p)
  {
  }

  /** The rest of the publication, once the published source is known to close. */
  lemma CloseKeeps(sys: System, based: System, p: Source, again: Grants)
    requires based == sys.(flight := NoScan, cache := based.cache) && sys.frame.NoFrame? && ClosesWell(sys, p)
    requires RecordsOk(p.records) && forall n :: n in p.names ==> NameIsValid(n)
    requires var after := SetSource(based, ClosePublication(p)); WorldInv(after) && CacheInv(after)
    ensures var closed := ClosePublication(p);
            Inv(if Restarts(p)
                then SetSource(SetSource(based, closed), PrepareScan(closed, again))
                     .(frame := PublishFrame(PreparationNotifies(closed, again)))
                else SetSource(based, EndPublication(closed)))
  {
    var closed := ClosePublication(p);
    var after := SetSource(based, closed);
    if Restarts(p) {
      var framed := after.(frame := PublishFrame(PreparationNotifies(closed, again)));
      assert ControlInv(framed) by {
        assert ControlInv(sys.(src := closed, flight := NoScan, frame := framed.frame));
      }
      assert Inv(framed);
      PrepareKeeps(framed, again);
    } else {
      var ended := SetSource(based, EndPublication(closed));
      assert ended == after.(src := EndPublication(closed));
      assert ControlInv(ended) by {
        assert ControlInv(sys.(src := EndPublication(closed), flight := NoScan));
      }
    }
  }

  lemma PublishDropped(sys: System, grants: Grants, again: Grants)
    requires Inv(sys) && Enabled(sys, PublishScan(grants, again)) && !Live(sys.src)
    ensures Inv(ExecutePublish(sys, grants, again))
  {
    var based, p := sys.(flight := NoScan), Ended(sys.src);
    DroppedCloses(sys);
    SetSourceKeepsWorld(based, ClosePublication(p));
    HarmlessKeepsFacts(based, ClosePublication(p));
    CloseKeeps(sys, based, p, again);
  }

  lemma PublishRejected(sys: System, grants: Grants, again: Grants)
    requires Inv(sys) && Enabled(sys, PublishScan(grants, again)) && Live(sys.src)
    requires var e := RecheckMonitors(sys.src, grants, ResultFor(sys)); !Accepts(e.source, e.ready, ResultFor(sys))
    ensures Inv(ExecutePublish(sys, grants, again))
  {
    var based, p := sys.(flight := NoScan), PublishResult(sys.src, grants, ResultFor(sys));
    RejectedSource(sys.src, grants, ResultFor(sys));
    RejectedCloses(sys, p);
    SetSourceKeepsWorld(based, ClosePublication(p));
    HarmlessKeepsFacts(based, ClosePublication(p));
    CloseKeeps(sys, based, p, again);
  }

  lemma {:induction false} DistinctCount(records: seq<RuntimeRecord>)
    requires DistinctNames(records)
    ensures |NamesOf(records)| == |records|
  {
    if records != [] {
      var before, last := records[..|records| - 1], records[|records| - 1];
      DistinctCount(before);
      assert before + [last] == records;
      NamesOfSnoc(before, last);
      assert last.name !in NamesOf(before);
    }
  }

  lemma FinishedTask(task: Task)
    requires TaskOk(task, Publishing(true))
    ensures RecordsOk(task.records) && task.request.previous <= NamesOf(task.records)
  {
    DistinctCount(task.records);
    assert NamesOf(task.records) == task.names;
  }

  lemma PublishAccepted(sys: System, grants: Grants, again: Grants)
    requires Inv(sys) && Enabled(sys, PublishScan(grants, again))
    requires var e := RecheckMonitors(sys.src, grants, ResultFor(sys)); Accepts(e.source, e.ready, ResultFor(sys))
    ensures Inv(ExecutePublish(sys, grants, again))
  {
    hide CacheInv, ReconcileRecords, FilterOf, DatagramEffect, TableValid, AllVerdicts, Follows, ValidKeys, BasisOk;
    var result := ResultFor(sys).value;
    var based, p := sys.(flight := NoScan, cache := sys.scan), Accept(Ended(sys.src), result);
    AcceptedSource(sys.src, grants, ResultFor(sys));
    AcceptFields(Ended(sys.src), result);
    AcceptedCloses(sys, p);
    AcceptedCache(sys, ClosePublication(p));
    FinishedTask(sys.flight.task);
    ReconcileKeepsSessions(sys.src.records, result);
    assert SetSource(based, ClosePublication(p))
             == sys.(src := ClosePublication(p), flight := NoScan, cache := sys.scan);
    CloseKeeps(sys, based, p, again);
  }

  lemma PublishKeeps(sys: System, grants: Grants, again: Grants)
    requires Inv(sys) && Enabled(sys, PublishScan(grants, again))
    ensures Inv(ExecutePublish(sys, grants, again))
  {
    var e := RecheckMonitors(sys.src, grants, ResultFor(sys));
    if !Live(sys.src) {
      PublishDropped(sys, grants, again);
    } else if Accepts(e.source, e.ready, ResultFor(sys)) {
      PublishAccepted(sys, grants, again);
    } else {
      PublishRejected(sys, grants, again);
    }
  }

  // ------------------------------------------------------------------------
  // Notifications
  // ------------------------------------------------------------------------

  /** After an invalidation nothing has to be known about the data any more. */
  lemma InvalidatedKeeps(sys: System, s': Source)
    requires ControlInv(sys) && TableInv(sys) && WorldInv(sys) && Invalidated(sys, s')
    requires s'.records == sys.src.records && s'.names == sys.src.names
    ensures Inv(SetSource(sys, s'))
  {
    InvalidatedMoves(sys, s');
    SetSourceKeepsWorld(sys, s');
  }

  lemma MonitorRefreshInvalidates(sys: System, s: Source)
    requires ControlInv(sys) && Live(s) && s == sys.src.(monitors := s.monitors)
    ensures Invalidated(sys, ScheduleMonitorRefresh(s))
    ensures ScheduleMonitorRefresh(s).records == s.records && ScheduleMonitorRefresh(s).names == s.names
  {
    InvalidateFields(ClearRetry(s), AutomaticPurpose(s));
    ScheduleFields(Invalidate(ClearRetry(s), AutomaticPurpose(s)));
  }

  lemma FileEventKeeps(sys: System, taken: System, removed: bool)
    requires Inv(sys) && sys.src.monitors.file.Some?
    requires exists n :: taken == sys.(world := sys.world.(fileEvents := n))
    ensures Inv(SetSource(taken, FileChanged(sys.src, removed)))
  {
    var s := sys.src;
    var watching := if removed then s.(monitors := s.monitors.(file := None)) else s;
    MonitorRefreshInvalidates(taken, watching);
    InvalidatedKeeps(taken, ScheduleMonitorRefresh(watching));
  }

  lemma FileStepKeeps(sys: System, journal: bool, removed: bool)
    requires Inv(sys) && Enabled(sys, FileEvent(journal, removed))
    ensures Inv(Execute(sys, FileEvent(journal, removed)))
  {
    hide Inv, FileChanged, SetSource;
    var n: nat := if journal then sys.world.fileEvents - 1 else sys.world.fileEvents;
    FileEventKeeps(sys, sys.(world := sys.world.(fileEvents := n)), removed);
  }

  lemma ConsumeKeepsWorld(sys: System, count: nat)
    requires WorldInv(sys) && count <= |sys.world.queue|
    ensures WorldInv(Consume(sys, count))
  {
    var w, w' := sys.world, Consume(sys, count).world;
    forall k | 0 <= k < |w'.tables| ensures TableValid(w'.tables[k]) {
      assert w'.tables[k] == w.tables[count + k];
    }
    if !w.overflow {
      forall k | 0 <= k < |w'.queue| ensures DatagramEffect(w'.tables[k], w'.queue[k], w'.tables[k + 1]) {
        assert w'.queue[k] == w.queue[count + k] && w'.tables[k + 1] == w.tables[count + k + 1];
      }
    }
  }

  /** Ignored notifications leave what the filter tracks as it was. */
  lemma {:induction false} IrrelevantQueue(sys: System, f: LinkFilter, low: nat, high: nat)
    requires WorldInv(sys) && !sys.world.overflow && low <= high <= |sys.world.queue|
    requires Covers(f, sys.world.tables[low])
    requires forall k | low <= k < high :: !DatagramRelevant(f, sys.world.queue[k])
    ensures Tracked(f, sys.world.tables[high]) == Tracked(f, sys.world.tables[low]) && Covers(f, sys.world.tables[high])
    decreases high
  {
    if low < high {
      IrrelevantQueue(sys, f, low, high - 1);
      assert !DatagramRelevant(f, sys.world.queue[high - 1]);
      IrrelevantDatagram(f, sys.world.tables[high - 1], sys.world.queue[high - 1], sys.world.tables[high]);
    }
  }

  lemma IgnoredEventsKeepCache(sys: System, count: nat)
    requires WorldInv(sys) && CacheInv(sys) && count <= |sys.world.queue|
    requires forall k | 0 <= k < count :: !Noticed(sys.src, sys.world.queue[k])
    ensures CacheInv(Consume(sys, count))
  {
    if sys.src.isFresh && sys.src.filter.Some? && Intact(sys.world) && sys.cache.lead < count {
      IrrelevantQueue(sys, sys.src.filter.value, sys.cache.lead, count);
    }
  }

  lemma IgnoredEventsKeepScan(sys: System, count: nat)
    requires WorldInv(sys) && CacheInv(sys) && ScanInv(sys) && 0 < count <= |sys.world.queue|
    requires forall k | 0 <= k < count :: !Noticed(sys.src, sys.world.queue[k])
    ensures ScanInv(Consume(sys, count))
  {
    assert !Noticed(sys.src, sys.world.queue[0]);
    if Current(sys) && Watched(sys.src) && Intact(sys.world) && sys.flight.task.complete && !GaveUp(sys.flight.phase)
       && sys.flight.task.links.Some? && sys.scan.lead < count
       && |sys.flight.task.identities| == |sys.flight.task.records| {
      IrrelevantQueue(sys, sys.src.filter.value, sys.cache.lead, sys.scan.lead);
      IrrelevantQueue(sys, sys.src.filter.value, sys.scan.lead, count);
    }
  }

  lemma IgnoredEventsKeep(sys: System, count: nat)
    requires Inv(sys) && count <= |sys.world.queue|
    requires forall k | 0 <= k < count :: !Noticed(sys.src, sys.world.queue[k])
    ensures Inv(Consume(sys, count))
  {
    ConsumeKeepsWorld(sys, count);
    IgnoredEventsKeepCache(sys, count);
    if count > 0 {
      IgnoredEventsKeepScan(sys, count);
    } else {
      assert Consume(sys, count) == sys;
    }
  }

  lemma NoticedEventsKeep(sys: System, count: nat, s: Source)
    requires Inv(sys) && count <= |sys.world.queue| && Live(s) && s == sys.src.(monitors := s.monitors)
    ensures Inv(SetSource(Consume(sys, count), ScheduleMonitorRefresh(s)))
  {
    ConsumeKeepsWorld(sys, count);
    MonitorRefreshInvalidates(Consume(sys, count), s);
    InvalidatedKeeps(Consume(sys, count), ScheduleMonitorRefresh(s));
  }

  lemma LinkEventsKeep(sys: System, count: nat, end: DrainEnd)
    requires Inv(sys) && Enabled(sys, LinkEvents(count, end))
    ensures Inv(ExecuteLinkEvents(sys, count, end))
  {
    var s, batch := sys.src, sys.world.queue[..count];
    if end == Broken {
      NoticedEventsKeep(sys, count, s.(monitors := s.monitors.(link := false)));
    } else if end == LimitReached || exists k | 0 <= k < |batch| :: Noticed(s, batch[k]) {
      NoticedEventsKeep(sys, count, s);
    } else {
      forall k | 0 <= k < count ensures !Noticed(s, sys.world.queue[k]) {
        assert batch[k] == sys.world.queue[k];
      }
      IgnoredEventsKeep(sys, count);
      assert SetSource(Consume(sys, count), s) == Consume(sys, count);
    }
  }

  lemma QueuedChangeKeepsWorld(sys: System, w': World, d: Datagram)
    requires WorldInv(sys) && TableValid(w'.links) && DatagramEffect(sys.world.links, d, w'.links)
    requires sys.src.monitors.link && !sys.world.overflow
    requires w'
               == sys.world.(links := w'.links, queue := sys.world.queue + [d], tables := sys.world.tables + [w'.links])
    ensures WorldInv(sys.(world := w'))
  {
    forall k | 0 <= k < |w'.queue| ensures DatagramEffect(w'.tables[k], w'.queue[k], w'.tables[k + 1]) {
      if k < |sys.world.queue| {
        assert w'.tables[k] == sys.world.tables[k] && w'.tables[k + 1] == sys.world.tables[k + 1];
      }
    }
  }

  lemma LinkChangeKeepsWorld(sys: System, d: Datagram, t: LinkTable, lost: bool)
    requires WorldInv(sys) && TableValid(t) && DatagramEffect(sys.world.links, d, t)
    ensures WorldInv(ExecuteLinkChange(sys, d, t, lost))
  {
    if sys.src.monitors.link && !lost && !sys.world.overflow {
      QueuedChangeKeepsWorld(sys, ExecuteLinkChange(sys, d, t, lost).world, d);
    }
  }

  lemma LinkChangeKeepsFacts(sys: System, d: Datagram, t: LinkTable, lost: bool)
    requires ControlInv(sys) && WorldInv(sys) && CacheInv(sys) && ScanInv(sys)
    ensures var after := ExecuteLinkChange(sys, d, t, lost); CacheInv(after) && ScanInv(after)
  {
    hide TableValid, DatagramEffect, BasisOk, AllVerdicts, Knows, Covers, Tracked, ValidKeys, NamesOf, MarkersValid;
  }

  lemma LinkChangeKeeps(sys: System, d: Datagram, t: LinkTable, lost: bool)
    requires Inv(sys) && Enabled(sys, LinkChange(d, t, lost))
    ensures Inv(ExecuteLinkChange(sys, d, t, lost))
  {
    LinkChangeKeepsWorld(sys, d, t, lost);
    LinkChangeKeepsFacts(sys, d, t, lost);
    hide WorldInv, CacheInv, ScanInv;
    var after := ExecuteLinkChange(sys, d, t, lost);
    assert ControlInv(after) && TableInv(after);
  }

  lemma JournalChangeKeeps(sys: System, changed: Journals)
    requires Inv(sys) && Enabled(sys, JournalChange(changed))
    ensures Inv(Execute(sys, JournalChange(changed)))
  {
  }

  // ------------------------------------------------------------------------
  // The scan on its worker thread
  // ------------------------------------------------------------------------

  lemma WorkerKeepsControl(sys: System, task: Task, phase: Phase)
    requires ControlInv(sys) && sys.flight.InFlight? && task.request == sys.flight.task.request
    ensures ControlInv(sys.(flight := InFlight(task, phase)))
  {
  }

  lemma CollectedTask(task: Task, listing: Listing, chosen: set<string>)
    requires TaskOk(task, Collecting)
    requires task.request.previous <= chosen && |chosen| <= MAX_NAMES && forall n :: n in chosen ==> NameIsValid(n)
    ensures TaskOk(Collect(task, listing, chosen), Snapshotting)
  {
    assert NamesOf([]) == {};
  }

  /** A complete collection holds every name of interest and no other. */
  lemma CollectedNames(sys: System, listing: Listing, chosen: set<string>)
    requires Inv(sys) && Enabled(sys, CollectNames(listing, chosen)) && Current(sys) && sys.world.fileEvents == 0
    requires Collect(sys.flight.task, listing, chosen).complete
    ensures var wanted := sys.src.names + ValidKeys(sys.world.journals);
            wanted <= chosen <= NamesOf(sys.src.records) + wanted
  {
    assert Sessions(sys.src.records) <= NamesOf(sys.src.records);
  }

  lemma CollectedScan(sys: System, listing: Listing, chosen: set<string>)
    requires Inv(sys) && Enabled(sys, CollectNames(listing, chosen))
    ensures ScanInv(sys.(flight := InFlight(Collect(sys.flight.task, listing, chosen), Snapshotting)))
  {
    if Current(sys) && sys.world.fileEvents == 0 && Collect(sys.flight.task, listing, chosen).complete {
      CollectedNames(sys, listing, chosen);
    }
  }

  lemma CollectKeeps(sys: System, listing: Listing, chosen: set<string>)
    requires Inv(sys) && Enabled(sys, CollectNames(listing, chosen))
    ensures Inv(sys.(flight := InFlight(Collect(sys.flight.task, listing, chosen), Snapshotting)))
  {
    WorkerKeepsControl(sys, Collect(sys.flight.task, listing, chosen), Snapshotting);
    CollectedTask(sys.flight.task, listing, chosen);
    CollectedScan(sys, listing, chosen);
  }

  lemma ReadLinksKeeps(sys: System, dump: Option<seq<LinkRecord>>)
    requires Inv(sys) && Enabled(sys, ReadLinks(dump))
    ensures Inv(Execute(sys, ReadLinks(dump)))
  {
  }

  lemma DistinctSnoc(records: seq<RuntimeRecord>, last: RuntimeRecord)
    requires DistinctNames(records) && last.name !in NamesOf(records)
    ensures DistinctNames(records + [last])
  {
    assert forall i | 0 <= i < |records| :: records[i].name in NamesOf(records);
  }

  lemma MovedName(records: seq<RuntimeRecord>, todo: set<string>, names: set<string>, last: RuntimeRecord)
    requires DistinctNames(records) && NamesOf(records) + todo == names && NamesOf(records) !! todo && last.name in todo
    ensures var r := records + [last];
            DistinctNames(r) && NamesOf(r) + (todo - {last.name}) == names && NamesOf(r) !! todo - {last.name}
  {
    NamesOfSnoc(records, last);
    DistinctSnoc(records, last);
  }

  lemma ObservedTask(task: Task, name: string, read: MarkerRead)
    requires TaskOk(task, Observing) && name in task.todo
    ensures TaskOk(ObserveName(task, name, read), Observing)
  {
    var after := ObserveName(task, name, read);
    var last := after.records[|task.records|];
    assert after.records == task.records + [last];
    MovedName(task.records, task.todo, task.names, last);
  }

  lemma VerdictsSnoc(task: Task, name: string, read: MarkerRead, journals: Journals)
    requires task.links.Some? && !read.UnknownMarker? && read == ReadOf(journals, name)
    requires |task.identities| == |task.records| && AllVerdicts(task.records, journals, task.links.value)
    requires forall i | 0 <= i < |task.records| ::
               task.identities[i] == IdentityFor(ReadOf(journals, task.records[i].name), task.records[i].name)
    ensures var after := ObserveName(task, name, read);
            && AllVerdicts(after.records, journals, task.links.value)
            && forall i | 0 <= i < |after.records| ::
                 after.identities[i] == IdentityFor(ReadOf(journals, after.records[i].name), after.records[i].name)
  {
  }

  lemma ObservedVerdicts(sys: System, name: string, read: MarkerRead)
    requires ControlInv(sys) && TableInv(sys) && ScanInv(sys) && Enabled(sys, ObserveOne(name, read))
    ensures ScanInv(sys.(flight := InFlight(ObserveName(sys.flight.task, name, read), Observing)))
  {
    var after := ObserveName(sys.flight.task, name, read);
    if Current(sys) && Watched(sys.src) && Intact(sys.world) && after.complete
       && |sys.world.tables| == |sys.world.queue| + 1 && sys.scan.lead <= |sys.world.queue| {
      VerdictsSnoc(sys.flight.task, name, read, sys.world.journals);
    }
  }

  lemma ObserveKeeps(sys: System, name: string, read: MarkerRead)
    requires Inv(sys) && Enabled(sys, ObserveOne(name, read))
    ensures Inv(sys.(flight := InFlight(ObserveName(sys.flight.task, name, read), Observing)))
  {
    WorkerKeepsControl(sys, ObserveName(sys.flight.task, name, read), Observing);
    ObservedTask(sys.flight.task, name, read);
    ObservedVerdicts(sys, name, read);
  }

  lemma WorkerReturnsKeeps(sys: System, ok: bool)
    requires Inv(sys) && Enabled(sys, WorkerReturns(ok))
    ensures Inv(sys.(flight := InFlight(sys.flight.task, Returned(ok))))
  {
    WorkerKeepsControl(sys, sys.flight.task, Returned(ok));
  }

  lemma ScanReturnedKeeps(sys: System)
    requires Inv(sys) && Enabled(sys, ScanReturned)
    ensures Inv(Execute(sys, ScanReturned))
  {
  }

  // ------------------------------------------------------------------------
  // Every step
  // ------------------------------------------------------------------------

  lemma MutationMoves(sys: System, active: bool)
    requires ControlInv(sys)
    ensures MovesOnly(sys, SetMutationActive(sys.src, active))
  {
  }

  lemma CallMoves(sys: System, call: Call)
    requires ControlInv(sys)
    requires !call.CallStop?
    ensures MovesOnly(sys, Apply(sys.src, call))
  {
    match call {
      case CallRequestRefresh(p) => RequestMoves(sys, p);
      case CallPoll(p) => PollMoves(sys, p);
      case CallRecordDelete(name) => DeleteMoves(sys, name);
      case CallSetNames(names, p) => SetNamesMoves(sys, names, p);
      case CallSetMutationActive(active) => MutationMoves(sys, active);
      case CallEnsureMonitor(g) => EnsureMonitorMoves(sys, g);
      case CallBeginStart(g) => BeginStartMoves(sys, g);
      case CallBeginEnable(g) => BeginEnableMoves(sys, g);
      case CallDisable => DisableMoves(sys);
    }
  }

  predicate SameTables(s: Source, s': Source) {
    s'.records == s.records && s'.names == s.names
  }

  lemma EnsureMonitorTables(s: Source, grants: Grants)
    ensures SameTables(s, EnsureMonitor(s, grants))
  {
  }

  lemma StartTables(s: Source, grants: Grants)
    ensures SameTables(s, BeginStart(s, grants)) && SameTables(s, Start(s, grants))
    ensures SameTables(s, BeginEnable(s, grants))
  {
    EnsureMonitorTables(s.(life := s.life.(started := true)), grants);
    EnsureMonitorTables(s.(life := s.life.(enabled := true)), grants);
  }

  lemma PollTables(s: Source, purpose: Purpose)
    ensures SameTables(s, Poll(s, purpose)) && SameTables(s, RequestRefresh(s, purpose))
  {
  }

  lemma SetNamesTables(s: Source, names: seq<string>, purpose: Purpose)
    requires forall n :: n in s.names ==> NameIsValid(n)
    ensures SetNames(s, names, purpose).records == s.records
    ensures forall n :: n in SetNames(s, names, purpose).names ==> NameIsValid(n)
  {
  }

  /** Only a deletion touches the records outside publication, and it touches one
      name. */
  lemma CallTables(s: Source, call: Call)
    requires RecordsOk(s.records) && forall n :: n in s.names ==> NameIsValid(n)
    ensures RecordsOk(Apply(s, call).records) && forall n :: n in Apply(s, call).names ==> NameIsValid(n)
    ensures !call.CallRecordDelete? ==> Apply(s, call).records == s.records
  {
    match call {
      case CallRequestRefresh(p) => PollTables(s, p);
      case CallPoll(p) => PollTables(s, p);
      case CallRecordDelete(name) =>
        WithoutFirstNames(s.records, name);
        PollTables(s.(records := WithoutFirst(s.records, name)), Reconcile);
      case CallSetNames(names, p) => SetNamesTables(s, names, p);
      case CallEnsureMonitor(g) => EnsureMonitorTables(s, g);
      case CallBeginStart(g) => StartTables(s, g);
      case CallBeginEnable(g) => StartTables(s, g);
      case _ =>
    }
  }

  lemma CallKeeps(sys: System, call: Call)
    requires Inv(sys) && Enabled(sys, Public(call))
    ensures Inv(ExecuteCall(sys, call))
  {
    if call.CallStop? {
      StopKeeps(sys);
    } else {
      CallMoves(sys, call);
      CallTables(sys.src, call);
      MoveKeeps(sys, Apply(sys.src, call));
    }
  }

  lemma TimerStepsKeep(sys: System, step: Step)
    requires Inv(sys) && Enabled(sys, step)
    requires step.FireRefresh? || step.FireRetryTimer? || step.FinishFrame? || step.ScanReturned? || step.PublishScan?
    ensures Inv(Execute(sys, step))
  {
    hide ControlInv, WorldInv, CacheInv, ScanInv, RefreshFrom, ExecuteFinish, ExecutePublish;
    match step {
      case FireRefresh(orphan, g) => RefreshKeeps(sys, TakenTimer(sys.src, orphan), g);
      case FireRetryTimer => RetryMoves(sys); MoveKeeps(sys, FireRetry(sys.src));
      case FinishFrame => FinishKeeps(sys);
      case ScanReturned => ScanReturnedKeeps(sys);
      case PublishScan(g, again) => PublishKeeps(sys, g, again);
    }
  }

  lemma WorldStepsKeep(sys: System, step: Step)
    requires Inv(sys) && Enabled(sys, step)
    requires step.FileEvent? || step.LinkEvents? || step.LinkChange? || step.JournalChange?
    ensures Inv(Execute(sys, step))
  {
    hide Inv, Enabled, FileChanged, SetSource, ExecuteLinkEvents, ExecuteLinkChange;
    match step {
      case FileEvent(journal, removed) => FileStepKeeps(sys, journal, removed);
      case LinkEvents(count, end) => LinkEventsKeep(sys, count, end);
      case LinkChange(d, t, lost) => LinkChangeKeeps(sys, d, t, lost);
      case JournalChange(changed) => JournalChangeKeeps(sys, changed);
    }
  }

  lemma WorkerStepsKeep(sys: System, step: Step)
    requires Inv(sys) && Enabled(sys, step)
    requires step.CollectNames? || step.ReadLinks? || step.ObserveOne? || step.WorkerReturns?
    ensures Inv(Execute(sys, step))
  {
    hide Inv, Enabled, Collect, ObserveName;
    match step {
      case CollectNames(listing, chosen) => CollectKeeps(sys, listing, chosen);
      case ReadLinks(dump) => ReadLinksKeeps(sys, dump);
      case ObserveOne(name, read) => ObserveKeeps(sys, name, read);
      case WorkerReturns(ok) => WorkerReturnsKeeps(sys, ok);
    }
  }

  /** Every step of every schedule keeps the invariant. */
  lemma ExecuteKeeps(sys: System, step: Step)
    requires Inv(sys) && Enabled(sys, step)
    ensures Inv(Execute(sys, step))
  {
    hide Inv, Enabled, ExecuteCall, RefreshFrom, TakenTimer, FireRetry, ExecuteFinish, DropScan, ExecutePublish,
         FileChanged,
         SetSource, ExecuteLinkEvents, ExecuteLinkChange, Collect, ObserveName;
    match step {
      case Public(call) => CallKeeps(sys, call);
      case FireRefresh(_, _) => TimerStepsKeep(sys, step);
      case FireRetryTimer => TimerStepsKeep(sys, step);
      case FinishFrame => TimerStepsKeep(sys, step);
      case ScanReturned => TimerStepsKeep(sys, step);
      case PublishScan(_, _) => TimerStepsKeep(sys, step);
      case FileEvent(_, _) => WorldStepsKeep(sys, step);
      case LinkEvents(_, _) => WorldStepsKeep(sys, step);
      case LinkChange(_, _, _) => WorldStepsKeep(sys, step);
      case JournalChange(_) => WorldStepsKeep(sys, step);
      case CollectNames(_, _) => WorkerStepsKeep(sys, step);
      case ReadLinks(_) => WorkerStepsKeep(sys, step);
      case ObserveOne(_, _) => WorkerStepsKeep(sys, step);
      case WorkerReturns(_) => WorkerStepsKeep(sys, step);
    }
  }

  /** A source just created, in any world. */
  ghost predicate Initial(sys: System) {
    var w := sys.world;
    && sys.src == NEW_SOURCE && sys.flight.NoScan? && sys.frame.NoFrame?
    && w.queue == [] && w.tables == [w.links] && TableValid(w.links) && MarkersValid(w.journals)
    && !w.overflow && w.fileEvents == 0 && sys.cache.lead == 0 && sys.scan.lead == 0
  }

  /** `trace` is what the steps lead through, from creation on. */
  ghost predicate Run(trace: seq<System>, steps: seq<Step>) {
    && |trace| == |steps| + 1 && Initial(trace[0])
    && forall k | 0 <= k < |steps| ::
         && |trace[k].world.tables| == |trace[k].world.queue| + 1
         && Enabled(trace[k], steps[k]) && trace[k + 1] == Execute(trace[k], steps[k])
  }

  lemma {:induction false} RunKeeps(trace: seq<System>, steps: seq<Step>, k: nat)
    requires Run(trace, steps) && k <= |steps|
    ensures Inv(trace[k])
  {
    if k == 0 {
      assert NamesOf([]) == {};
      assert Inv(trace[0]);
    } else {
      RunKeeps(trace, steps, k - 1);
      ExecuteKeeps(trace[k - 1], steps[k - 1]);
    }
  }

  // ------------------------------------------------------------------------
  // What follows in every reachable state
  // ------------------------------------------------------------------------

  /** The first record of a name is its only one. */
  lemma OnlyRecord(records: seq<RuntimeRecord>, i: nat)
    requires DistinctNames(records) && i < |records|
    ensures FirstNamed(records, records[i].name) == Some(records[i])
  {
    assert forall j | 0 <= j < |records| && records[j].name == records[i].name :: j == i;
  }

  /** Equal up to what tracked links say, two listings give one verdict. */
  lemma VerdictFromTracked(f: LinkFilter, t1: LinkTable, d1: seq<LinkRecord>, t2: LinkTable, d2: seq<LinkRecord>,
                           read: MarkerRead, name: string)
    requires TableValid(t1) && IsDump(d1, t1) && TableValid(t2) && IsDump(d2, t2) && Tracked(f, t1) == Tracked(f, t2)
    requires name in f.names && (TokenOf(read).Some? ==> LinkAlias(TokenOf(read).value) in f.aliases)
    ensures Verdict(read, name, d1) == Verdict(read, name, d2)
  {
    var token := TokenOf(read);
    MatchingFromTracked(f, t1, t2, name, token);
    ObservationFromMatching(d1, t1, d2, t2, name, token);
    ClassifySameObservation(!read.Absent?, if read.ValidMarker? then Some(read.marker) else None,
                            Observation(d1, name, token), Observation(d2, name, token));
  }

  lemma RecordedAgree(sys: System, now: seq<LinkRecord>, i: nat)
    requires WorldInv(sys) && CacheInv(sys) && DistinctNames(sys.src.records) && i < |sys.src.records|
    requires sys.src.isFresh && sys.src.filter.Some? && sys.world.queue == [] && Intact(sys.world)
    requires IsDump(now, sys.world.links)
    ensures var name := sys.src.records[i].name;
            FirstNamed(sys.src.records, name) == Some(Verdict(ReadOf(sys.world.journals, name), name, now))
  {
    hide Verdict, IsDump, TableValid, Tracked, Covers, TokenOf, ReadOf, DatagramEffect;
    var s, w, name := sys.src, sys.world, sys.src.records[i].name;
    assert name in NamesOf(s.records);
    OnlyRecord(s.records, i);
    VerdictFromTracked(s.filter.value, sys.cache.origin, sys.cache.dump, w.links, now, ReadOf(w.journals, name), name);
  }

  lemma MissingAgree(sys: System, name: string)
    requires CacheInv(sys) && WorldInv(sys) && name !in NamesOf(sys.src.records)
    requires sys.src.isFresh && sys.src.filter.Some? && Intact(sys.world)
    ensures GetCached(sys.src, name).None? && name !in sys.src.names
    ensures NameIsValid(name) ==> name !in sys.world.journals
  {
    var s := sys.src;
    assert name !in s.names + ValidKeys(sys.world.journals);
    assert forall i | 0 <= i < |s.records| :: s.records[i].name in NamesOf(s.records);
  }

  /** Cache agreement. Once every delivered notification is processed, a fresh
      cache left by a complete scan answers for every recorded name exactly what a
      new reading of the journals and of the links would, whatever polls, events,
      failed and concurrent scans the run went through; and it misses no
      configured name and no journal. */
  lemma CacheAgreement(trace: seq<System>, steps: seq<Step>, now: seq<LinkRecord>, name: string)
    requires Run(trace, steps)
    requires var last := trace[|steps|];
             && last.src.isFresh && last.src.filter.Some? && last.world.queue == [] && Intact(last.world)
             && IsDump(now, last.world.links)
    ensures var s, w := trace[|steps|].src, trace[|steps|].world;
            && (name in NamesOf(s.records) ==> GetCached(s, name) == Some(Verdict(ReadOf(w.journals, name), name, now)))
            && (name !in NamesOf(s.records) ==>
                  GetCached(s, name).None? && name !in s.names && (NameIsValid(name) ==> name !in w.journals))
  {
    RunKeeps(trace, steps, |steps|);
    var sys := trace[|steps|];
    if name in NamesOf(sys.src.records) {
      var i :| 0 <= i < |sys.src.records| && sys.src.records[i].name == name;
      RecordedAgree(sys, now, i);
    } else {
      MissingAgree(sys, name);
    }
  }

  /** Freshness handshake. Records shown as fresh come from a scan that started
      after the last invalidation, and no record is fresh while a scan runs that
      another one must follow. */
  lemma FreshnessHandshake(trace: seq<System>, steps: seq<Step>)
    requires Run(trace, steps)
    ensures var s := trace[|steps|].src;
            && (s.isFresh ==> s.epochs.cache == s.epochs.invalidations && Watched(s))
            && (s.scan.running && s.scan.pending ==> !s.isFresh)
  {
    RunKeeps(trace, steps, |steps|);
  }

  /** No lost refresh. Between callbacks, a wanted scan always has something that
      will bring it about. */
  lemma NoLostRefresh(trace: seq<System>, steps: seq<Step>)
    requires Run(trace, steps)
    ensures var sys := trace[|steps|];
            sys.frame.NoFrame? && Live(sys.src) && sys.src.scan.pending ==>
              || sys.src.timers.debounce.Armed? || sys.src.timers.retry
              || (sys.src.scan.running && sys.src.scan.queued && sys.flight.InFlight?)
  {
    RunKeeps(trace, steps, |steps|);
  }

  lemma DeletedNames(records: seq<RuntimeRecord>, name: string)
    requires DistinctNames(records)
    ensures NamesOf(WithoutFirst(records, name)) == NamesOf(records) - {name}
  {
    hide IndexNamed;
    var r, i := WithoutFirst(records, name), IndexNamed(records, name);
    if i.Some? {
      assert forall j | 0 <= j < |records| && records[j].name == name :: j == i.value;
      forall n | n in NamesOf(records) - {name} ensures n in NamesOf(r) {
        var j :| 0 <= j < |records| && records[j].name == n;
        assert r[if j < i.value then j else j - 1].name == n;
      }
      forall n | n in NamesOf(r) ensures n in NamesOf(records) - {name} {
        var j :| 0 <= j < |r| && r[j].name == n;
        assert r[j] == records[if j < i.value then j else j + 1];
      }
    }
  }

  lemma AcceptedRecords(sys: System, grants: Grants, again: Grants)
    requires Inv(sys) && Enabled(sys, PublishScan(grants, again))
    requires var e := RecheckMonitors(sys.src, grants, ResultFor(sys)); Accepts(e.source, e.ready, ResultFor(sys))
    ensures Sessions(sys.src.records) <= NamesOf(PublishResult(sys.src, grants, ResultFor(sys)).records)
  {
    var result := ResultFor(sys);
    AcceptedSource(sys.src, grants, result);
    AcceptFields(Ended(sys.src), result.value);
    FinishedTask(sys.flight.task);
    ReconcileKeepsSessions(sys.src.records, result.value);
  }

  lemma PublishedRecords(sys: System, grants: Grants, again: Grants)
    requires sys.flight.InFlight? && sys.flight.phase.Publishing?
    ensures ExecutePublish(sys, grants, again).src.records == PublishResult(sys.src, grants, ResultFor(sys)).records
  {
    var p := PublishResult(sys.src, grants, ResultFor(sys));
    if Restarts(p) && CanStart(ClosePublication(p)) {
      PreparedSource(ClosePublication(p), again);
    }
  }

  lemma PublishRecords(sys: System, grants: Grants, again: Grants)
    requires Inv(sys) && Enabled(sys, PublishScan(grants, again))
    ensures Sessions(sys.src.records) <= NamesOf(ExecutePublish(sys, grants, again).src.records)
  {
    var result, p := ResultFor(sys), PublishResult(sys.src, grants, ResultFor(sys));
    var e := RecheckMonitors(sys.src, grants, result);
    assert Sessions(sys.src.records) <= NamesOf(sys.src.records);
    if Accepts(e.source, e.ready, result) {
      AcceptedRecords(sys, grants, again);
    } else if Live(sys.src) {
      RejectedSource(sys.src, grants, result);
    }
    assert Sessions(sys.src.records) <= NamesOf(p.records);
    PublishedRecords(sys, grants, again);
  }

  predicate Conserves(before: seq<RuntimeRecord>, step: Step, after: seq<RuntimeRecord>) {
    && (!(step.Public? && step.call.CallRecordDelete?) ==> Sessions(before) <= NamesOf(after))
    && (step.Public? && step.call.CallRecordDelete? ==> NamesOf(before) - {step.call.name} <= NamesOf(after))
    && (!step.PublishScan? ==> NamesOf(after) <= NamesOf(before))
  }

  lemma SameRecordsConserve(before: seq<RuntimeRecord>, step: Step)
    ensures Conserves(before, step, before)
  {
    assert Sessions(before) <= NamesOf(before);
  }

  lemma RefreshRecords(sys: System, s: Source, grants: Grants)
    requires s.records == sys.src.records
    ensures RefreshFrom(sys, s, grants).src.records == sys.src.records
  {
    if CanStart(s) {
      PreparedSource(s, grants);
    }
  }

  lemma CallConserves(s: Source, call: Call)
    requires RecordsOk(s.records) && forall n :: n in s.names ==> NameIsValid(n)
    ensures Conserves(s.records, Public(call), Apply(s, call).records)
  {
    CallTables(s, call);
    SameRecordsConserve(s.records, Public(call));
    if call.CallRecordDelete? {
      DeletedNames(s.records, call.name);
      PollTables(s.(records := WithoutFirst(s.records, call.name)), Reconcile);
    }
  }

  lemma StepConserves(sys: System, step: Step)
    requires Inv(sys) && Enabled(sys, step)
    ensures Conserves(sys.src.records, step, Execute(sys, step).src.records)
  {
    hide RefreshFrom, ExecutePublish, ControlInv, WorldInv, CacheInv, ScanInv, TaskOk;
    SameRecordsConserve(sys.src.records, step);
    match step {
      case Public(call) => CallConserves(sys.src, call);
      case FireRefresh(orphan, g) => RefreshRecords(sys, TakenTimer(sys.src, orphan), g);
      case PublishScan(g, again) => PublishRecords(sys, g, again);
      case _ =>
    }
  }

  /** Conservation of sessions. No step but a caller's deletion loses a name whose
      record was not inactive, and that deletion loses no other; names stay
      distinct and the table within its limit throughout. */
  lemma SessionConservation(trace: seq<System>, steps: seq<Step>, k: nat)
    requires Run(trace, steps) && k < |steps|
    ensures var before, after := trace[k].src.records, trace[k + 1].src.records;
            RecordsOk(after) && Conserves(before, steps[k], after)
  {
    RunKeeps(trace, steps, k);
    RunKeeps(trace, steps, k + 1);
    StepConserves(trace[k], steps[k]);
  }
}
