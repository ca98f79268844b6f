/** The runtime source as an object: its fields, updated in place, and the loops
    that rebuild the records, find names and drain the link socket. `View` is the
    object's value; every method moves it as the functions of `RuntimeSource` say.
    Notifications are calls out of the object and are not part of it. */
module RuntimeCache {
  import opened Amneziawg
  import opened LinkIdentity
  import Names
  import opened Refresh
  import opened RuntimeJournal
  import opened RuntimeSource

  // ------------------------------------------------------------------------
  // Loops over records and names
  // ------------------------------------------------------------------------

  /** The last observation of each of the first `n` names. */
  ghost predicate IndexesRecords(observations: map<string, RuntimeRecord>, found: seq<RuntimeRecord>) {
    && observations.Keys == NamesOf(found)
    && forall n :: n in observations ==> Observed(found, n) == Some(observations[n])
  }

  lemma ObservedSnoc(found: seq<RuntimeRecord>, last: RuntimeRecord, name: string)
    ensures Observed(found + [last], name) == if last.name == name then Some(last) else Observed(found, name)
  {
    assert (found + [last])[..|found|] == found;
  }

  method IndexRecords(found: seq<RuntimeRecord>) returns (observations: map<string, RuntimeRecord>)
    ensures IndexesRecords(observations, found)
  {
    observations := map[];
    for i := 0 to |found|
      invariant IndexesRecords(observations, found[..i])
    {
      assert found[..i + 1] == found[..i] + [found[i]];
      NamesOfSnoc(found[..i], found[i]);
      forall n
        ensures Observed(found[..i + 1], n) == if found[i].name == n then Some(found[i]) else Observed(found[..i], n)
      {
        ObservedSnoc(found[..i], found[i], n);
      }
      observations := observations[found[i].name := found[i]];
    }
    assert found[..|found|] == found;
  }

  /** One more known session carried, if there is room. */
  function CarryOne(before: seq<RuntimeRecord>, last: RuntimeRecord, found: seq<RuntimeRecord>): seq<RuntimeRecord> {
    if |before| < MAX_NAMES && IdentifiesSession(last) then before + [Carried(last, Observed(found, last.name))]
    else before
  }

  lemma CarriedSnoc(previous: seq<RuntimeRecord>, found: seq<RuntimeRecord>, i: nat)
    requires i < |previous|
    ensures CarriedSessions(previous[..i + 1], found)
              == CarryOne(CarriedSessions(previous[..i], found), previous[i], found)
  {
    assert previous[..i + 1][..i] == previous[..i];
  }

  lemma {:induction false} CarriedFull(previous: seq<RuntimeRecord>, found: seq<RuntimeRecord>, i: nat)
    requires i <= |previous| && |CarriedSessions(previous[..i], found)| == MAX_NAMES
    ensures CarriedSessions(previous, found) == CarriedSessions(previous[..i], found)
    decreases |previous| - i
  {
    if i < |previous| {
      CarriedSnoc(previous, found, i);
      CarriedFull(previous, found, i + 1);
    } else {
      assert previous[..i] == previous;
    }
  }

  function AdmitOne(before: seq<RuntimeRecord>, last: RuntimeRecord): seq<RuntimeRecord> {
    if |before| < MAX_NAMES && last.name !in NamesOf(before) then before + [last] else before
  }

  lemma WithNewSnoc(base: seq<RuntimeRecord>, found: seq<RuntimeRecord>, i: nat)
    requires |base| <= MAX_NAMES && i < |found|
    ensures WithNew(base, found[..i + 1]) == AdmitOne(WithNew(base, found[..i]), found[i])
  {
    assert found[..i + 1][..i] == found[..i];
  }

  lemma {:induction false} WithNewFull(base: seq<RuntimeRecord>, found: seq<RuntimeRecord>, i: nat)
    requires |base| <= MAX_NAMES && i <= |found| && |WithNew(base, found[..i])| == MAX_NAMES
    ensures WithNew(base, found) == WithNew(base, found[..i])
    decreases |found| - i
  {
    if i < |found| {
      WithNewSnoc(base, found, i);
      WithNewFull(base, found, i + 1);
    } else {
      assert found[..i] == found;
    }
  }

  /** The observations no record has been made of yet. */
  ghost predicate Remaining(observations: map<string, RuntimeRecord>, found: seq<RuntimeRecord>,
                            records: seq<RuntimeRecord>) {
    && observations.Keys == NamesOf(found) - NamesOf(records)
    && forall n :: n in observations ==> Observed(found, n) == Some(observations[n])
  }

  lemma TakeObservation(observations: map<string, RuntimeRecord>, found: seq<RuntimeRecord>,
                        records: seq<RuntimeRecord>, last: RuntimeRecord)
    requires Remaining(observations, found, records)
    ensures Remaining(observations - {last.name}, found, records + [last])
  {
    NamesOfSnoc(records, last);
  }

  /** Known sessions, first in the table an incomplete scan leaves. */
  method CarryKnown(previous: seq<RuntimeRecord>, found: seq<RuntimeRecord>)
    returns (records: seq<RuntimeRecord>, observations: map<string, RuntimeRecord>)
    requires DistinctNames(previous)
    ensures records == CarriedSessions(previous, found) && Remaining(observations, found, records)
  {
    assert CarriedSessions(previous[..0], found) == [];
    hide CarriedSessions, Observed;
    observations := IndexRecords(found);
    records := [];
    var i := 0;
    while i < |previous| && |records| < MAX_NAMES
      invariant i <= |previous|
      invariant records == CarriedSessions(previous[..i], found)
      invariant Remaining(observations, found, records)
      invariant forall j | i <= j < |previous| :: previous[j].name !in NamesOf(records)
    {
      var known := previous[i];
      CarriedSnoc(previous, found, i);
      if IdentifiesSession(known) {
        var observed := if known.name in observations then Some(observations[known.name]) else None;
        var record := Carried(known, observed);
        assert observed == Observed(found, known.name);
        TakeObservation(observations, found, records, record);
        NamesOfSnoc(records, record);
        records := records + [record];
        observations := observations - {known.name};
      }
      i := i + 1;
    }
    if i < |previous| {
      CarriedFull(previous, found, i);
    } else {
      assert previous[..i] == previous;
    }
  }

  /** New names, while there is room. */
  method AdmitNew(base: seq<RuntimeRecord>, found: seq<RuntimeRecord>, left: map<string, RuntimeRecord>)
    returns (records: seq<RuntimeRecord>)
    requires |base| <= MAX_NAMES && Remaining(left, found, base)
    ensures records == WithNew(base, found)
  {
    var observations := left;
    records := base;
    var i := 0;
    while i < |found| && |records| < MAX_NAMES
      invariant i <= |found|
      invariant records == WithNew(base, found[..i])
      invariant Remaining(observations, found, records)
    {
      WithNewSnoc(base, found, i);
      assert found[i].name in NamesOf(found);
      if found[i].name in observations {
        TakeObservation(observations, found, records, found[i]);
        records := records + [found[i]];
        observations := observations - {found[i].name};
      }
      i := i + 1;
    }
    if i < |found| {
      WithNewFull(base, found, i);
    } else {
      assert found[..i] == found;
    }
  }

  /** The records a scan leaves: its own when it was complete, otherwise the known
      sessions, space being kept for them, and then the new names. */
  method ReconcileScanRecords(previous: seq<RuntimeRecord>, result: ScanResult) returns (records: seq<RuntimeRecord>)
    requires DistinctNames(previous)
    ensures records == ReconcileRecords(previous, result)
  {
    if result.complete {
      return result.records;
    }
    var known, left := CarryKnown(previous, result.records);
    records := AdmitNew(known, result.records, left);
  }

  /** The first distinct valid names, as many as fit, in order. */
  method NormalizeNames(names: seq<string>) returns (normalized: Names.NameList)
    ensures Names.Elements(normalized) == Normalize(names)
  {
    var unique := {};
    for i := 0 to |names|
      invariant unique == Normalize(names[..i])
    {
      assert names[..i + 1][..i] == names[..i];
      if NameIsValid(names[i]) && (names[i] in unique || |unique| < MAX_NAMES) {
        unique := unique + {names[i]};
      }
    }
    assert names[..|names|] == names;
    normalized := Names.Sorted(unique);
  }

  lemma {:induction false} FirstIndex(records: seq<RuntimeRecord>, name: string, i: nat)
    requires i < |records| && records[i].name == name && forall k | 0 <= k < i :: records[k].name != name
    ensures IndexNamed(records, name) == Some(i)
  {
    if i > 0 {
      FirstIndex(records[1..], name, i - 1);
    }
  }

  method FindName(records: seq<RuntimeRecord>, name: string) returns (found: Option<nat>)
    ensures found == IndexNamed(records, name)
  {
    for i := 0 to |records|
      invariant forall k | 0 <= k < i :: records[k].name != name
    {
      if records[i].name == name {
        FirstIndex(records, name, i);
        return Some(i);
      }
    }
    return None;
  }

  lemma SessionsSnoc(records: seq<RuntimeRecord>, last: RuntimeRecord)
    ensures Sessions(records + [last]) == Sessions(records) + if IdentifiesSession(last) then {last.name} else {}
  {
    var r := records + [last];
    assert r[|records|] == last;
    forall n | n in Sessions(records) ensures n in Sessions(r) {
      var i :| 0 <= i < |records| && IdentifiesSession(records[i]) && records[i].name == n;
      assert r[i] == records[i];
    }
    forall n | n in Sessions(r) && n !in Sessions(records) ensures IdentifiesSession(last) && n == last.name {
      var i :| 0 <= i < |r| && IdentifiesSession(r[i]) && r[i].name == n;
      assert i < |records| ==> r[i] == records[i];
    }
  }

  /** The names whose sessions a scan must look at again. */
  method PreviousSessions(records: seq<RuntimeRecord>) returns (previous: set<string>)
    ensures previous == Sessions(records)
  {
    previous := {};
    for i := 0 to |records|
      invariant previous == Sessions(records[..i])
    {
      SessionsSnoc(records[..i], records[i]);
      assert records[..i + 1] == records[..i] + [records[i]];
      if IdentifiesSession(records[i]) {
        previous := previous + {records[i].name};
      }
    }
    assert records[..|records|] == records;
  }

  // ------------------------------------------------------------------------
  // The link socket
  // ------------------------------------------------------------------------

  /** What one dispatch takes off the socket, at most `budget` reads, and how it
      ends. */
  function DrainOf(reads': seq<ReadResult>, budget: nat): (r: (seq<Datagram>, DrainEnd))
    ensures |r.0| <= budget
  {
    if budget == 0 then ([], LimitReached)
    else if reads' == [] then ([], Drained)
    else
      match reads'[0]
      case Received(d) => var rest := DrainOf(reads'[1..], budget - 1); ([d] + rest.0, rest.1)
      case Interrupted => DrainOf(reads'[1..], budget - 1)
      case Empty => ([], Drained)
      case Failed => ([], Broken)
  }

  predicate AnyNoticed(s: Source, batch: seq<Datagram>) {
    exists k | 0 <= k < |batch| :: Noticed(s, batch[k])
  }

  lemma ConsNoticed(s: Source, d: Datagram, batch: seq<Datagram>)
    ensures AnyNoticed(s, [d] + batch) == (Noticed(s, d) || AnyNoticed(s, batch))
  {
    if AnyNoticed(s, batch) {
      var k :| 0 <= k < |batch| && Noticed(s, batch[k]);
      assert ([d] + batch)[k + 1] == batch[k];
    }
    assert ([d] + batch)[0] == d;
  }

  // ------------------------------------------------------------------------
  // What is shown
  // ------------------------------------------------------------------------

  function ShownOf(records: seq<RuntimeRecord>, isFresh: bool): seq<RuntimeRecord> {
    if records == [] then []
    else
      var last := records[|records| - 1];
      var before := ShownOf(records[..|records| - 1], isFresh);
      if isFresh then before + [last]
      else if IdentifiesSession(last) then before + [RuntimeRecord(last.name, Unknown, false)]
      else before
  }

  function Shown(s: Source): seq<RuntimeRecord> {
    ShownOf(s.records, s.isFresh)
  }

  /** Fresh records are shown as they are. */
  lemma {:induction false} FreshShown(records: seq<RuntimeRecord>)
    ensures ShownOf(records, true) == records
  {
    if records != [] {
      FreshShown(records[..|records| - 1]);
    }
  }

  /** Stale ones never hide a session and never show what was inactive. */
  lemma {:induction false} StaleShown(records: seq<RuntimeRecord>)
    ensures NamesOf(ShownOf(records, false)) == Sessions(records)
    ensures forall r :: r in ShownOf(records, false) ==> r.state == Unknown && !r.interfaceExists
  {
    if records != [] {
      var before, last := records[..|records| - 1], records[|records| - 1];
      StaleShown(before);
      assert before + [last] == records;
      SessionsSnoc(before, last);
      NamesOfSnoc(ShownOf(before, false), RuntimeRecord(last.name, Unknown, false));
    }
  }

  /** The refresh timer's callback, without re-entry. */
  function RefreshDispatched(s: Source, grants: Grants): Source {
    var taken := s.(timers := s.timers.(debounce := Dispatching));
    var done := if taken.scan.running then taken.(scan := taken.scan.(queued := true)) else StartScan(taken, grants);
    done.(timers := done.timers.(debounce := Off))
  }

  // ------------------------------------------------------------------------
  // The object
  // ------------------------------------------------------------------------

  class RuntimeCache {
    var names: Names.NameList
    var records: seq<RuntimeRecord>
    var linkFilter: Option<LinkFilter>
    var recordsFresh: bool
    var debounceSource: Timer
    var orphanTimers: nat
    var retrySource: bool
    var retryAttempt: nat
    var linkMonitor: bool
    var fileMonitor: Option<nat>
    var refreshGeneration: nat
    var refreshPending: bool
    var scanRunning: bool
    var scanQueued: bool
    var queuedPurpose: Purpose
    var scanPurpose: Purpose
    var retryPurpose: Purpose
    var mutationActive: bool
    var reconciliationActive: bool
    var monitorEnabled: bool
    var started: bool
    var stopping: bool
    ghost var invalidations: nat
    ghost var scanEpoch: nat
    ghost var cacheEpoch: nat

    // The parts of the view, each with just the fields it reads: what a method does
    // not touch it need not look into.

    ghost function TimersView(): Timers
      reads this`debounceSource, this`orphanTimers, this`retrySource, this`retryAttempt
    {
      Timers(debounceSource, orphanTimers, retrySource, retryAttempt)
    }

    ghost function MonitorsView(): Monitors
      reads this`linkMonitor, this`fileMonitor
    {
      Monitors(linkMonitor, fileMonitor)
    }

    ghost function ProgressView(): Progress
      reads this`refreshGeneration, this`refreshPending, this`scanRunning, this`scanQueued
    {
      Progress(refreshGeneration, refreshPending, scanRunning, scanQueued)
    }

    ghost function PurposesView(): Purposes
      reads this`queuedPurpose, this`scanPurpose, this`retryPurpose, this`mutationActive, this`reconciliationActive
    {
      Purposes(queuedPurpose, scanPurpose, retryPurpose, mutationActive, reconciliationActive)
    }

    ghost function LifeView(): Life
      reads this`monitorEnabled, this`started, this`stopping
    {
      Life(monitorEnabled, started, stopping)
    }

    ghost function EpochsView(): Epochs
      reads this`invalidations, this`scanEpoch, this`cacheEpoch
    {
      Epochs(invalidations, scanEpoch, cacheEpoch)
    }

    ghost function View(): Source
      reads this
    {
      Source(Names.Elements(names), records, linkFilter, recordsFresh, TimersView(), MonitorsView(), ProgressView(),
             PurposesView(),
             LifeView(), EpochsView())
    }

    constructor ()
      ensures View() == NEW_SOURCE
    {
      names, records, linkFilter, recordsFresh := [], [], None, false;
      debounceSource, orphanTimers, retrySource, retryAttempt := Off, 0, false, 0;
      linkMonitor, fileMonitor := false, None;
      refreshGeneration, refreshPending, scanRunning, scanQueued := 0, false, false, false;
      queuedPurpose, scanPurpose, retryPurpose := Reconcile, Reconcile, Reconcile;
      mutationActive, reconciliationActive := false, false;
      monitorEnabled, started, stopping := false, false, false;
      invalidations, scanEpoch, cacheEpoch := 0, 0, 0;
    }

    predicate IsLive()
      reads this
      ensures IsLive() == Live(View())
    {
      started && !stopping && monitorEnabled
    }

    predicate Checking()
      reads this
      ensures Checking() == IsChecking(View())
    {
      IsLive() && (debounceSource != Off || scanRunning)
    }

    /** Only the first request of a generation retires a running scan. */
    method Pend()
      modifies this`refreshGeneration, this`refreshPending
      ensures var p := old(View()).scan;
              View() == old(View()).(scan := p.(generation := if p.pending then p.generation else p.generation + 1,
                                                pending := true))
    {
      hide TimersView, MonitorsView, PurposesView, LifeView, EpochsView;
      if !refreshPending {
        refreshGeneration := refreshGeneration + 1;
      }
      refreshPending := true;
      assert TimersView() == old(TimersView()) && MonitorsView() == old(MonitorsView());
      assert PurposesView() == old(PurposesView()) && LifeView() == old(LifeView());
      assert EpochsView() == old(EpochsView());
    }

    method QueueScan(purpose: Purpose)
      modifies this`reconciliationActive, this`refreshGeneration, this`refreshPending, this`queuedPurpose
      ensures View() == RuntimeSource.QueueScan(old(View()), purpose)
    {
      hide TimersView, MonitorsView, LifeView, EpochsView;
      reconciliationActive := purpose == Reconcile;
      Pend();
      var effective := purpose;
      if scanRunning {
        effective := Max(purpose, scanPurpose);
      }
      queuedPurpose := Max(queuedPurpose, effective);
      assert TimersView() == old(TimersView()) && MonitorsView() == old(MonitorsView());
      assert LifeView() == old(LifeView()) && EpochsView() == old(EpochsView());
      assert ProgressView() == RuntimeSource.QueueScan(old(View()), purpose).scan;
    }

    method InvalidateRecords(purpose: Purpose) returns (wasFresh: bool)
      modifies this
      ensures View() == Invalidate(old(View()), purpose) && wasFresh == old(recordsFresh)
    {
      wasFresh := recordsFresh;
      QueueScan(purpose);
      recordsFresh := false;
      invalidations := invalidations + 1;
    }

    method ScheduleRefresh()
      modifies this`debounceSource
      ensures View() == RuntimeSource.ScheduleRefresh(old(View()))
    {
      if IsLive() && debounceSource == Off {
        debounceSource := Armed;
      }
    }

    method ScheduleRetry(purpose: Purpose)
      modifies this`retryPurpose, this`retrySource, this`retryAttempt
      ensures View() == RuntimeSource.ScheduleRetry(old(View()), purpose)
    {
      if !IsLive() {
        return;
      }
      retryPurpose := Max(retryPurpose, purpose);
      if !retrySource {
        ArmRetry();
      }
    }

    method ArmRetry()
      modifies this`retrySource, this`retryAttempt
      ensures var t := old(View()).timers;
              View() == old(View()).(timers := t.(retry := true, retryAttempt := NextAttempt(t.retryAttempt)))
    {
      if retryAttempt < RETRY_STEPS {
        retryAttempt := retryAttempt + 1;
      }
      retrySource := true;
    }

    method ClearRetrySource()
      modifies this`retryPurpose, this`retrySource
      ensures View() == ClearRetry(old(View()))
    {
      retrySource := false;
      retryPurpose := Reconcile;
    }

    /** Watches the journal directory or, failing that, the nearest ancestor. */
    method EnsureFileMonitor(grants: Grants) returns (changed: bool, ready: bool)
      modifies this`fileMonitor
      ensures (fileMonitor, changed, ready) == WatchFrom(old(fileMonitor), grants, 0)
    {
      for level := 0 to WATCH_LEVELS
        invariant fileMonitor == old(fileMonitor)
        invariant WatchFrom(old(fileMonitor), grants, 0) == WatchFrom(old(fileMonitor), grants, level)
      {
        if fileMonitor == Some(level) {
          return false, true;
        }
        if grants.Watch(level) {
          fileMonitor := Some(level);
          return true, true;
        }
      }
      return false, false;
    }

    method EnsureBothMonitors(grants: Grants) returns (changed: bool, ready: bool)
      modifies this`fileMonitor, this`linkMonitor
      ensures Ensured(View(), changed, ready) == EnsureMonitors(old(View()), grants)
    {
      changed, ready := EnsureFileMonitor(grants);
      if !linkMonitor {
        linkMonitor := grants.socket;
        changed := changed || linkMonitor;
      }
      ready := ready && linkMonitor;
    }

    /** The first half of starting a scan. */
    method Prepare(grants: Grants)
      requires CanStart(View())
      modifies this
      ensures View() == PrepareScan(old(View()), grants)
    {
      var changed, ready := EnsureBothMonitors(grants);
      if changed || !ready {
        var _ := InvalidateRecords(queuedPurpose);
      }
    }

    /** The second half: the request the worker is given, and the flags. */
    method Launch() returns (request: ScanRequest)
      requires CanStart(View())
      modifies this
      ensures View() == LaunchScan(old(View())) && request == RequestOf(old(View()))
    {
      var previous := PreviousSessions(records);
      request := ScanRequest(Names.Elements(names), previous, refreshGeneration);
      TakePending();
      TakePurpose();
    }

    method TakePending()
      modifies this`refreshPending, this`scanQueued, this`scanRunning, this`scanEpoch
      ensures var s := old(View());
              View() == s.(scan := s.scan.(pending := false, queued := false, running := true),
                           epochs := s.epochs.(scan := s.epochs.invalidations))
    {
      hide TimersView, MonitorsView, PurposesView, LifeView;
      refreshPending, scanQueued, scanRunning := false, false, true;
      scanEpoch := invalidations;
      assert TimersView() == old(TimersView()) && MonitorsView() == old(MonitorsView());
      assert PurposesView() == old(PurposesView()) && LifeView() == old(LifeView());
      assert ProgressView() == old(ProgressView()).(pending := false, queued := false, running := true);
    }

    method TakePurpose()
      modifies this`scanPurpose, this`queuedPurpose
      ensures var p := old(View()).purposes;
              View() == old(View()).(purposes := p.(scan := p.queued, queued := Reconcile))
    {
      scanPurpose, queuedPurpose := queuedPurpose, Reconcile;
    }

    method StartScan(grants: Grants) returns (request: Option<ScanRequest>)
      modifies this
      ensures View() == RuntimeSource.StartScan(old(View()), grants)
      ensures request.Some? == CanStart(old(View()))
    {
      if !IsLive() || scanRunning || !refreshPending {
        return None;
      }
      Prepare(grants);
      var launched := Launch();
      request := Some(launched);
    }

    /** The publication callback, without re-entry. */
    method PublishScan(grants: Grants, result: Option<ScanResult>, again: Grants) returns (request: Option<ScanRequest>)
      requires DistinctNames(records)
      modifies this
      ensures View() == Publish(old(View()), grants, result, again)
    {
      var purpose := scanPurpose;
      var ready := Settle(grants, result);
      if IsLive() && !ready {
        ScheduleRetry(purpose);
      }
      var restart := IsLive() && refreshPending && scanQueued;
      Close();
      request := None;
      if restart {
        request := StartScan(again);
      }
      End();
    }

    method Close()
      modifies this`scanQueued, this`scanPurpose
      ensures View() == ClosePublication(old(View()))
    {
      scanQueued := false;
      scanPurpose := Reconcile;
    }

    method End()
      modifies this`reconciliationActive
      ensures View() == EndPublication(old(View()))
    {
      if !Checking() {
        reconciliationActive := false;
      }
    }

    /** Whether the monitors stood all along, and the result if it is believed. */
    method Settle(grants: Grants, result: Option<ScanResult>) returns (ready: bool)
      requires DistinctNames(records)
      modifies this
      ensures var e := RecheckMonitors(old(View()), grants, result);
              && ready == e.ready
              && View() == if Accepts(e.source, e.ready, result) then Accept(e.source, result.value) else e.source
    {
      var purpose := scanPurpose;
      ready := Recheck(grants, result);
      if IsLive() && ready && result.Some? && result.value.generation == refreshGeneration && !refreshPending {
        AcceptResult(result.value);
      }
    }

    method StopRunning()
      modifies this`scanRunning
      ensures View() == old(View()).(scan := old(View()).scan.(running := false))
    {
      scanRunning := false;
    }

    method QueueAnother()
      modifies this`scanQueued
      ensures View() == old(View()).(scan := old(View()).scan.(queued := true))
    {
      scanQueued := true;
    }

    method Recheck(grants: Grants, result: Option<ScanResult>) returns (ready: bool)
      modifies this
      ensures var e := RecheckMonitors(old(View()), grants, result);
              ready == e.ready && View() == e.source && records == old(records)
    {
      var purpose := scanPurpose;
      StopRunning();
      if !IsLive() {
        return false;
      }
      var changed;
      changed, ready := EnsureBothMonitors(grants);
      if changed || !ready {
        var _ := InvalidateRecords(purpose);
        if changed {
          QueueAnother();
        }
      } else if result.None? && !refreshPending {
        var _ := InvalidateRecords(purpose);
        ScheduleRetry(purpose);
      }
    }

    method AcceptResult(result: ScanResult)
      requires DistinctNames(records)
      modifies this
      ensures View() == Accept(old(View()), result)
    {
      var reconciled := ReconcileScanRecords(records, result);
      Store(reconciled, result.filter);
      if result.complete {
        ClearRetrySource();
        retryAttempt := 0;
      } else {
        ScheduleRetry(scanPurpose);
      }
    }

    method Store(reconciled: seq<RuntimeRecord>, filter: Option<LinkFilter>)
      modifies this`records, this`linkFilter, this`recordsFresh, this`cacheEpoch
      ensures View() == old(View()).(records := reconciled, filter := filter, isFresh := true,
                                     epochs := old(View()).epochs.(cache := old(View()).epochs.scan))
    {
      hide TimersView, MonitorsView, ProgressView, PurposesView, LifeView;
      records, linkFilter, recordsFresh := reconciled, filter, true;
      cacheEpoch := scanEpoch;
      assert TimersView() == old(TimersView()) && MonitorsView() == old(MonitorsView());
      assert ProgressView() == old(ProgressView()) && PurposesView() == old(PurposesView());
      assert LifeView() == old(LifeView());
    }

    method RequestRefresh(purpose: Purpose)
      modifies this
      ensures View() == RuntimeSource.RequestRefresh(old(View()), purpose)
    {
      if !IsLive() {
        return;
      }
      ClearRetrySource();
      var _ := InvalidateRecords(purpose);
      ScheduleRefresh();
    }

    /** A poll while a scan is under way. */
    method RaisePurposes(purpose: Purpose)
      modifies this`reconciliationActive, this`scanPurpose, this`queuedPurpose
      ensures var s, p := old(View()), old(View()).purposes;
              View() == s.(purposes := p.(reconciling := if purpose == Visible then false else p.reconciling,
                                          scan := if s.scan.running then Max(p.scan, purpose) else p.scan,
                                          queued := if s.scan.pending then Max(p.queued, purpose) else p.queued))
    {
      hide TimersView, MonitorsView, LifeView, EpochsView;
      if purpose == Visible {
        reconciliationActive := false;
      }
      if scanRunning {
        scanPurpose := Max(scanPurpose, purpose);
      }
      if refreshPending {
        queuedPurpose := Max(queuedPurpose, purpose);
      }
      assert TimersView() == old(TimersView()) && MonitorsView() == old(MonitorsView());
      assert ProgressView() == old(ProgressView()) && LifeView() == old(LifeView());
      assert EpochsView() == old(EpochsView());
    }

    method Poll(purpose: Purpose)
      modifies this
      ensures View() == RuntimeSource.Poll(old(View()), purpose)
    {
      if !IsLive() {
        return;
      }
      if scanRunning || refreshPending {
        RaisePurposes(purpose);
        return;
      }
      ClearRetrySource();
      QueueScan(purpose);
      ScheduleRefresh();
    }

    method RecordDelete(name: string)
      modifies this
      ensures View() == RuntimeSource.RecordDelete(old(View()), name)
    {
      if stopping || !NameIsValid(name) {
        return;
      }
      var found := FindName(records, name);
      if found.Some? {
        records := records[..found.value] + records[found.value + 1..];
      }
      RequestRefresh(Reconcile);
    }

    method SetNames(wanted: seq<string>, purpose: Purpose)
      modifies this
      ensures View() == RuntimeSource.SetNames(old(View()), wanted, purpose)
    {
      if stopping {
        return;
      }
      var normalized := NormalizeNames(wanted);
      var equal := Names.Equal(names, normalized);
      if equal {
        return;
      }
      names := normalized;
      var _ := InvalidateRecords(purpose);
      if IsLive() {
        ClearRetrySource();
        ScheduleRefresh();
      }
    }

    /** The cached answer for a name; nothing unless the records are fresh. */
    method CachedRecord(name: string) returns (record: Option<RuntimeRecord>)
      ensures record == GetCached(View(), name)
    {
      if !recordsFresh || !NameIsValid(name) {
        return None;
      }
      var found := FindName(records, name);
      record := if found.Some? then Some(records[found.value]) else None;
    }

    /** What is shown of the cache: when stale, the known sessions only, as
        unknown. */
    method DupCachedRecords() returns (shown: seq<RuntimeRecord>)
      ensures shown == Shown(View())
    {
      shown := [];
      for i := 0 to |records|
        invariant shown == ShownOf(records[..i], recordsFresh)
      {
        assert records[..i + 1][..i] == records[..i];
        if recordsFresh || IdentifiesSession(records[i]) {
          shown := shown + [if recordsFresh then records[i] else RuntimeRecord(records[i].name, Unknown, false)];
        }
      }
      assert records[..|records|] == records;
    }

    method SetDebounce(timer: Timer)
      modifies this`debounceSource
      ensures View() == old(View()).(timers := old(View()).timers.(debounce := timer))
    {
      debounceSource := timer;
    }

    method RefreshTimer(grants: Grants) returns (request: Option<ScanRequest>)
      requires debounceSource == Armed
      modifies this
      ensures View() == RefreshDispatched(old(View()), grants)
    {
      SetDebounce(Dispatching);
      request := None;
      if scanRunning {
        QueueAnother();
      } else {
        request := StartScan(grants);
      }
      SetDebounce(Off);
    }

    method RetryTimer()
      modifies this
      ensures View() == FireRetry(old(View()))
    {
      var purpose := retryPurpose;
      ClearRetrySource();
      RequestRefresh(purpose);
    }

    method MonitorRefresh()
      modifies this
      ensures View() == ScheduleMonitorRefresh(old(View()))
    {
      if !IsLive() {
        return;
      }
      ClearRetrySource();
      var purpose := if mutationActive || reconciliationActive then Reconcile else Visible;
      var _ := InvalidateRecords(purpose);
      ScheduleRefresh();
    }

    method FileEvent(removed: bool)
      modifies this
      ensures View() == FileChanged(old(View()), removed)
    {
      if !IsLive() {
        return;
      }
      if removed {
        fileMonitor := None;
      }
      MonitorRefresh();
    }

    /** One dispatch of the link socket: a bounded drain that judges every datagram
        by the published filter. */
    method LinkEvent(results: seq<ReadResult>)
      modifies this
      ensures var d := DrainOf(results, EVENT_DRAIN_LIMIT);
              View() == LinksChanged(old(View()), d.0, d.1)
    {
      var changed, end := DrainSocket(results);
      if end == Broken {
        linkMonitor := false;
        MonitorRefresh();
      } else if changed || end == LimitReached {
        MonitorRefresh();
      }
    }

    method DrainSocket(results: seq<ReadResult>) returns (changed: bool, end: DrainEnd)
      ensures var d := DrainOf(results, EVENT_DRAIN_LIMIT);
              end == d.1 && (end != Broken ==> changed == AnyNoticed(View(), d.0))
    {
      changed := false;
      var rest := results;
      var budget: nat := EVENT_DRAIN_LIMIT;
      var s := View();
      ghost var whole := DrainOf(results, EVENT_DRAIN_LIMIT);
      while budget > 0 && rest != []
        invariant 0 <= budget <= EVENT_DRAIN_LIMIT && s == View()
        invariant whole.1 == DrainOf(rest, budget).1
        invariant AnyNoticed(s, whole.0) == (changed || AnyNoticed(s, DrainOf(rest, budget).0))
        decreases budget
      {
        match rest[0] {
          case Empty => return changed, Drained;
          case Failed => return changed, Broken;
          case Interrupted =>
          case Received(d) =>
            ConsNoticed(s, d, DrainOf(rest[1..], budget - 1).0);
            if !recordsFresh || linkFilter.None? || DatagramRelevant(linkFilter.value, d) {
              changed := true;
            }
        }
        rest, budget := rest[1..], budget - 1;
      }
      end := if budget == 0 then LimitReached else Drained;
    }

    method SetMutationActive(active: bool)
      modifies this
      ensures View() == RuntimeSource.SetMutationActive(old(View()), active)
    {
      if !stopping {
        mutationActive := active;
      }
    }

    method EnsureMonitor(grants: Grants)
      modifies this
      ensures View() == RuntimeSource.EnsureMonitor(old(View()), grants)
    {
      if !IsLive() {
        return;
      }
      var changed, ready := EnsureBothMonitors(grants);
      if changed || !ready {
        var _ := InvalidateRecords(if mutationActive || reconciliationActive then Reconcile else Visible);
        if changed {
          ScheduleRefresh();
        }
      }
      if !ready {
        ScheduleRetry(if mutationActive || reconciliationActive then Reconcile else Visible);
      }
    }

    method Start(grants: Grants)
      modifies this
      ensures View() == RuntimeSource.Start(old(View()), grants)
    {
      if started || stopping {
        return;
      }
      started := true;
      if monitorEnabled {
        EnsureMonitor(grants);
        RequestRefresh(Visible);
      }
    }

    method Stop()
      modifies this
      ensures View() == RuntimeSource.Stop(old(View()))
    {
      if stopping {
        return;
      }
      EndLife();
      ClearSources();
      ForgetRecords();
    }

    method EndLife()
      modifies this`started, this`stopping, this`monitorEnabled
      ensures View() == old(View()).(life := Life(false, false, true))
    {
      hide TimersView, MonitorsView, ProgressView, PurposesView, EpochsView;
      stopping, started, monitorEnabled := true, false, false;
      assert TimersView() == old(TimersView()) && MonitorsView() == old(MonitorsView());
      assert ProgressView() == old(ProgressView()) && PurposesView() == old(PurposesView());
      assert EpochsView() == old(EpochsView());
    }

    /** Removes the refresh and retry timers and closes both monitors. */
    method ClearSources()
      modifies this`debounceSource, this`retrySource, this`fileMonitor, this`linkMonitor
      ensures View()
                == old(View()).(timers := old(View()).timers.(debounce := Off, retry := false),
                                monitors := Monitors(false, None))
    {
      hide ProgressView, PurposesView, LifeView, EpochsView;
      debounceSource, retrySource := Off, false;
      fileMonitor, linkMonitor := None, false;
      assert ProgressView() == old(ProgressView()) && PurposesView() == old(PurposesView());
      assert LifeView() == old(LifeView()) && EpochsView() == old(EpochsView());
      assert TimersView() == old(TimersView()).(debounce := Off, retry := false);
    }

    method ForgetRecords()
      modifies this`recordsFresh, this`refreshPending, this`scanQueued, this`invalidations
      ensures var s := old(View());
              View() == s.(isFresh := false, scan := s.scan.(pending := false, queued := false),
                           epochs := s.epochs.(invalidations := s.epochs.invalidations + 1))
    {
      hide TimersView, MonitorsView, PurposesView, LifeView;
      recordsFresh, refreshPending, scanQueued := false, false, false;
      invalidations := invalidations + 1;
      assert TimersView() == old(TimersView()) && MonitorsView() == old(MonitorsView());
      assert PurposesView() == old(PurposesView()) && LifeView() == old(LifeView());
      assert ProgressView() == old(ProgressView()).(pending := false, queued := false);
    }

    method ResetPurposes()
      modifies this`queuedPurpose, this`scanPurpose, this`retryPurpose, this`mutationActive, this`reconciliationActive
      ensures View() == old(View()).(purposes := Purposes(Reconcile, Reconcile, Reconcile, false, false))
    {
      hide TimersView, MonitorsView, ProgressView, LifeView, EpochsView;
      queuedPurpose, scanPurpose, retryPurpose := Reconcile, Reconcile, Reconcile;
      mutationActive, reconciliationActive := false, false;
      assert TimersView() == old(TimersView()) && MonitorsView() == old(MonitorsView());
      assert ProgressView() == old(ProgressView()) && LifeView() == old(LifeView());
      assert EpochsView() == old(EpochsView());
    }

    method SetEnabled(enabled: bool)
      modifies this`monitorEnabled
      ensures View() == old(View()).(life := old(View()).life.(enabled := enabled))
    {
      monitorEnabled := enabled;
    }

    method SetMonitorEnabled(enabled: bool, grants: Grants)
      modifies this
      ensures View() == if enabled then Enable(old(View()), grants) else Disable(old(View()))
    {
      if monitorEnabled == enabled {
        return;
      }
      SetEnabled(enabled);
      if !enabled {
        ClearSources();
        ForgetRecords();
        ResetPurposes();
        EndGeneration();
        return;
      }
      EnsureMonitor(grants);
      RequestRefresh(Visible);
    }

    /** A scan still running will not be believed. */
    method EndGeneration()
      modifies this`refreshGeneration, this`retryAttempt
      ensures var s := old(View());
              View() == s.(timers := s.timers.(retryAttempt := 0), scan := s.scan.(generation := s.scan.generation + 1))
    {
      hide MonitorsView, PurposesView, LifeView, EpochsView;
      refreshGeneration, retryAttempt := refreshGeneration + 1, 0;
      assert MonitorsView() == old(MonitorsView()) && PurposesView() == old(PurposesView());
      assert LifeView() == old(LifeView()) && EpochsView() == old(EpochsView());
    }
  }
}
