/** The object's methods are steps of the system: its callbacks and its public
    operations move the object as a step of `RuntimeSystem` moves its source. A
    callback that notifies halfway is two steps, its beginning and its end, with no
    re-entry between; starting and switching monitoring on are the step that begins
    them and the refresh they end with. */
module RuntimeRefinement {
  import opened Amneziawg
  import opened LinkIdentity
  import opened Refresh
  import opened RuntimeSource
  import opened RuntimeSystem
  import Cache = RuntimeCache
  import Safety = RuntimeSafety

  ghost predicate WellQueued(sys: System) {
    |sys.world.tables| == |sys.world.queue| + 1
  }

  lemma RefreshTimerIsTwoSteps(sys: System, grants: Grants)
    requires WellQueued(sys) && Enabled(sys, FireRefresh(false, grants))
    ensures var begun := Execute(sys, FireRefresh(false, grants));
            (if begun.frame.NoFrame? then begun.src else ExecuteFinish(begun).src)
            == Cache.RefreshDispatched(sys.src, grants)
  {
    hide PrepareScan, Sync;
    var taken := TakenTimer(sys.src, false);
    if CanStart(taken) {
      Safety.PreparedSource(taken, grants);
    }
  }

  lemma PublicationIsTwoSteps(sys: System, grants: Grants, again: Grants)
    requires WellQueued(sys) && Enabled(sys, PublishScan(grants, again))
    ensures var begun := ExecutePublish(sys, grants, again);
            var result := if sys.flight.phase.ok then Some(ResultOf(sys.flight.task)) else None;
            (if begun.frame.NoFrame? then begun.src else ExecuteFinish(begun).src)
            == Publish(sys.src, grants, result, again)
  {
    hide PublishResult, RecheckMonitors, PrepareScan, ResultOf, Sync;
    var result := if sys.flight.phase.ok then Some(ResultOf(sys.flight.task)) else None;
    var closed := ClosePublication(PublishResult(sys.src, grants, result));
    if CanStart(closed) {
      Safety.PreparedSource(closed, again);
    }
  }

  lemma LinkDispatchIsOneStep(sys: System, results: seq<ReadResult>)
    requires WellQueued(sys)
    requires var d := Cache.DrainOf(results, EVENT_DRAIN_LIMIT);
             d.0 <= sys.world.queue && Enabled(sys, LinkEvents(|d.0|, d.1))
    ensures var d := Cache.DrainOf(results, EVENT_DRAIN_LIMIT);
            Execute(sys, LinkEvents(|d.0|, d.1)).src == LinksChanged(sys.src, d.0, d.1)
  {
    var d := Cache.DrainOf(results, EVENT_DRAIN_LIMIT);
    assert sys.world.queue[..|d.0|] == d.0;
  }

  /** File events and the retry timer, whose callbacks end with a refresh of their
      own. */
  lemma OtherCallbacksAreOneStep(sys: System, journal: bool, removed: bool)
    requires WellQueued(sys)
    ensures Enabled(sys, FileEvent(journal, removed)) ==>
              Execute(sys, FileEvent(journal, removed)).src == FileChanged(sys.src, removed)
    ensures Enabled(sys, FireRetryTimer) ==> Execute(sys, FireRetryTimer).src == FireRetry(sys.src)
  {
  }

  lemma CallIsOneStep(sys: System, call: Call)
    requires WellQueued(sys) && Enabled(sys, Public(call))
    ensures Execute(sys, Public(call)).src == Apply(sys.src, call)
  {
  }

  /** What one public operation leads to from another. */
  function After(sys: System, first: Call, second: Call): Source {
    Apply(Apply(sys.src, first), second)
  }

  lemma SwitchingIsCalls(sys: System, grants: Grants)
    ensures IsRunning(sys.src) || sys.src.life.stopping || !sys.src.life.enabled ==>
              Start(sys.src, grants) == Apply(sys.src, CallBeginStart(grants))
    ensures !sys.src.life.started && !sys.src.life.stopping && sys.src.life.enabled ==>
              Start(sys.src, grants) == After(sys, CallBeginStart(grants), CallRequestRefresh(Visible))
    ensures !sys.src.life.enabled ==>
              Enable(sys.src, grants) == After(sys, CallBeginEnable(grants), CallRequestRefresh(Visible))
    ensures sys.src.life.enabled ==> Enable(sys.src, grants) == Apply(sys.src, CallBeginEnable(grants))
  {
  }
}
