/** The profile inventory: a refresh wanted later, the one timer that brings it
    about, and the one request in flight.

    Callbacks run in the middle of two operations, and may call back into any
    public one; those operations are split at the callback, the rest of them
    waiting as a frame on a stack. `requestId` never wraps. */
module Inventory {
  import opened Amneziawg
  import opened Refresh

  const RECHECK_DELAY_MS: nat := 2000
  const REFRESH_INTERVAL_US: nat := 60 * 1000000

  /** What an operation still has to do once its callback returns. */
  datatype Frame =
    | Announced(id: nat)       // a request, after announcing that it started
    | Asked(id: nat)           // a request, while asking whether to dispatch
    | Refused(id: nat)         // a reply, while authorization is being questioned
    | FinishAnnounced          // a request just finished, after announcing it

  datatype Queue = Queue(dirty: bool, delay: nat, purpose: Purpose)

  datatype Request = Request(id: nat, pending: bool, purpose: Purpose, lastAttempt: nat)

  datatype Gates = Gates(authorized: bool, enabled: bool, suspended: bool, started: bool, stopping: bool)

  /** `source` is the armed timer's deadline, in microseconds; `outstanding` holds
      the requests the backend still owes a result. */
  datatype Inventory = Inventory(
    queue: Queue, source: Option<nat>, request: Request, retryAttempt: nat, gates: Gates,
    outstanding: set<nat>, frames: seq<Frame>)

  const CLEAN := Queue(false, 0, Reconcile)
  const NEW_INVENTORY :=
    Inventory(CLEAN, None, Request(0, false, Reconcile, 0), 0, Gates(false, false, false, false, false), {}, [])

  predicate IsRunning(v: Inventory) {
    v.gates.started && !v.gates.stopping
  }

  /** Nothing but a request in flight keeps queued work from being scheduled. */
  predicate IsOpen(v: Inventory) {
    IsRunning(v) && v.gates.authorized && v.gates.enabled && !v.gates.suspended
  }

  predicate IsCurrent(v: Inventory, id: nat) {
    IsRunning(v) && v.gates.authorized && v.request.pending && v.request.id == id
  }

  function AtLeastOne(delay: nat): nat {
    if delay == 0 then 1 else delay
  }

  /** Arms the timer for queued work, unless something stands in its way. */
  function Schedule(v: Inventory, now: nat): Inventory {
    if IsOpen(v) && v.queue.dirty && !v.request.pending && v.source.None? then
      v.(source := Some(now + AtLeastOne(v.queue.delay) * 1000))
    else v
  }

  function QueueWith(q: Queue, delay: nat, purpose: Purpose): Queue {
    Queue(true, if !q.dirty || q.delay == 0 || delay < q.delay then delay else q.delay, Max(q.purpose, purpose))
  }

  /** Queues a refresh. The clock is read twice: at `now`, to compare with the
      armed timer, and at `later`, to arm a new one. */
  function QueueRefresh(v: Inventory, delay: nat, purpose: Purpose, now: nat, later: nat): Inventory {
    if !IsRunning(v) then v
    else
      var wanted := now + AtLeastOne(delay) * 1000;
      var queued := v.(queue := QueueWith(v.queue, AtLeastOne(delay), purpose));
      Schedule(if v.source.Some? && wanted < v.source.value then queued.(source := None) else queued, later)
  }

  const RETRY_STEPS: nat := 5

  function RetryDelay(attempt: nat): nat {
    if attempt == 0 then 2000 else if attempt == 1 then 4000 else if attempt == 2 then 8000
    else if attempt == 3 then 16000 else if attempt == 4 then 32000 else 60000
  }

  function ScheduleRetry(v: Inventory, purpose: Purpose, now: nat, later: nat): Inventory {
    if !IsRunning(v) then v
    else
      var attempt := if v.retryAttempt < RETRY_STEPS then v.retryAttempt + 1 else v.retryAttempt;
      QueueRefresh(v.(retryAttempt := attempt), RetryDelay(v.retryAttempt), purpose, now, later)
  }

  function CancelRequest(v: Inventory): Inventory {
    v.(request := v.request.(pending := false, purpose := Reconcile))
  }

  function Reset(v: Inventory): Inventory {
    v.(source := None, queue := CLEAN, retryAttempt := 0, request := Request(v.request.id, false, Reconcile, 0))
  }

  function Start(v: Inventory, now: nat): Inventory {
    if v.gates.started || v.gates.stopping then v else Schedule(v.(gates := v.gates.(started := true)), now)
  }

  function Stop(v: Inventory): Inventory {
    if v.gates.stopping then v
    else Reset(v.(gates := Gates(false, false, v.gates.suspended, false, true)))
  }

  function SetAuthorized(v: Inventory, authorized: bool, now: nat): Inventory {
    if v.gates.stopping then v
    else
      var moved := v.(gates := v.gates.(authorized := authorized));
      if authorized then Schedule(moved, now) else Reset(moved)
  }

  function SetEnabled(v: Inventory, enabled: bool, now: nat): Inventory {
    if v.gates.stopping || v.gates.enabled == enabled then v
    else
      var moved := v.(gates := v.gates.(enabled := enabled));
      if enabled then Schedule(moved.(retryAttempt := 0), now) else moved.(source := None)
  }

  function SetSuspended(v: Inventory, suspended: bool, now: nat): Inventory {
    if v.gates.stopping || v.gates.suspended == suspended then v
    else
      var moved := v.(gates := v.gates.(suspended := suspended));
      if suspended then moved else Schedule(moved, now)
  }

  function Preempt(v: Inventory, now: nat, later: nat): Inventory {
    if !IsRunning(v) then v
    else
      var suspended := SetSuspended(v, true, now);
      if !suspended.request.pending then suspended
      else QueueRefresh(CancelRequest(suspended), RECHECK_DELAY_MS, Reconcile, now, later)
  }

  /** A new request, up to the announcement that it started. */
  function BeginRequest(v: Inventory, purpose: Purpose, now: nat): Inventory {
    var id := v.request.id + 1;
    v.(queue := CLEAN, source := None, request := Request(id, true, Max(purpose, v.queue.purpose), now),
       frames := v.frames + [Announced(id)])
  }

  function RequestRefresh(v: Inventory, force: bool, purpose: Purpose, now: nat, later: nat): Inventory {
    if !IsRunning(v) || !v.gates.authorized then v
    else if !v.gates.enabled then QueueRefresh(v, 1, purpose, now, later)
    else if v.request.pending then v.(request := v.request.(purpose := Max(v.request.purpose, purpose)))
    else if v.gates.suspended then QueueRefresh(v, 1, purpose, now, later)
    else if v.source.Some? && !force then v.(queue := v.queue.(purpose := Max(v.queue.purpose, purpose)))
    else if !force && v.request.lastAttempt != 0 && now < v.request.lastAttempt + REFRESH_INTERVAL_US then v
    else BeginRequest(v, purpose, now)
  }

  /** The timer's callback. */
  function SourceFired(v: Inventory, now: nat, later: nat): Inventory {
    var fired := v.(source := None);
    if !IsRunning(v) || !v.gates.authorized then fired.(queue := CLEAN)
    else if !v.gates.enabled || v.gates.suspended then fired
    else RequestRefresh(fired, true, v.queue.purpose, now, later)
  }

  /** Finishing a request, up to its announcement. */
  function Finish(v: Inventory, id: nat): Inventory {
    if !IsCurrent(v, id) then v
    else CancelRequest(v).(frames := v.frames + [FinishAnnounced])
  }

  datatype Reply = GoodReply | BadReply | WasCancelled | WasRefused | OtherFailure

  /** A result from the backend. A refusal questions the authorization first. */
  function ResultArrived(v: Inventory, id: nat, reply: Reply, now: nat, later: nat): Inventory {
    var received := v.(outstanding := v.outstanding - {id});
    if !IsCurrent(v, id) then received
    else
      match reply
      case GoodReply => Finish(received.(retryAttempt := 0), id)
      case WasCancelled => Finish(received, id)
      case WasRefused => received.(frames := v.frames + [Refused(id)])
      case _ => Finish(ScheduleRetry(received, v.request.purpose, now, later), id)
  }

  /** The top frame goes on; `dispatch` is the answer to its question, if it asked
      one. */
  function Resume(v: Inventory, dispatch: bool, now: nat): Inventory
    requires v.frames != []
  {
    var top, below := v.frames[|v.frames| - 1], v.(frames := v.frames[..|v.frames| - 1]);
    match top
    case Announced(id) => if IsCurrent(v, id) then below.(frames := below.frames + [Asked(id)]) else below
    case Asked(id) =>
      if !dispatch then Finish(below, id)
      else if IsCurrent(v, id) then below.(outstanding := below.outstanding + {id})
      else below
    case Refused(id) => Finish(below, id)
    case FinishAnnounced => Schedule(below, now)
  }

  datatype Step =
    | StepStart | StepStop
    | StepSetAuthorized(authorized: bool)
    | StepSetEnabled(enabled: bool)
    | StepSetSuspended(suspended: bool)
    | StepPreempt
    | StepQueue(delay: nat, purpose: Purpose)
    | StepRetry(retry: Purpose)
    | StepRequest(force: bool, wanted: Purpose)
    | StepSource
    | StepResult(id: nat, reply: Reply)
    | StepResume(dispatch: bool)

  /** Steps that may be taken now. The timer may run a little before its recorded
      deadline, which is noted after the timer was set. */
  predicate Enabled(v: Inventory, step: Step) {
    match step
    case StepSource => v.frames == [] && v.source.Some?
    case StepResult(id, _) => id in v.outstanding
    case StepResume(_) => v.frames != []
    case _ => true
  }

  function Execute(v: Inventory, step: Step, now: nat, later: nat): Inventory
    requires Enabled(v, step)
  {
    match step
    case StepStart => Start(v, now)
    case StepStop => Stop(v)
    case StepSetAuthorized(authorized) => SetAuthorized(v, authorized, now)
    case StepSetEnabled(enabled) => SetEnabled(v, enabled, now)
    case StepSetSuspended(suspended) => SetSuspended(v, suspended, now)
    case StepPreempt => Preempt(v, now, later)
    case StepQueue(delay, purpose) => QueueRefresh(v, delay, purpose, now, later)
    case StepRetry(purpose) => ScheduleRetry(v, purpose, now, later)
    case StepRequest(force, purpose) => RequestRefresh(v, force, purpose, now, later)
    case StepSource => SourceFired(v, now, later)
    case StepResult(id, reply) => ResultArrived(v, id, reply, now, later)
    case StepResume(dispatch) => Resume(v, dispatch, now)
  }

  // ------------------------------------------------------------------------
  // Every run
  // ------------------------------------------------------------------------

  predicate ArmedInv(v: Inventory) {
    && (IsOpen(v) && v.queue.dirty && !v.request.pending ==> v.source.Some? || FinishAnnounced in v.frames)
    && (v.source.Some? ==> v.queue.dirty && !v.request.pending && IsRunning(v) && v.gates.authorized && v.gates.enabled)
  }

  predicate RequestInv(v: Inventory) {
    && (v.request.pending ==> IsRunning(v) && v.gates.authorized)
    && (forall id :: id in v.outstanding ==> id <= v.request.id)
  }

  predicate Inv(v: Inventory) {
    ArmedInv(v) && RequestInv(v)
  }

  lemma ScheduleArms(v: Inventory, now: nat)
    requires RequestInv(v)
    requires v.source.Some? ==>
               v.queue.dirty && !v.request.pending && IsRunning(v) && v.gates.authorized && v.gates.enabled
    ensures Inv(Schedule(v, now))
  {
  }

  lemma QueueKeeps(v: Inventory, delay: nat, purpose: Purpose, now: nat, later: nat)
    requires Inv(v)
    ensures Inv(QueueRefresh(v, delay, purpose, now, later))
  {
  }

  lemma RetryKeeps(v: Inventory, purpose: Purpose, now: nat, later: nat)
    requires Inv(v)
    ensures Inv(ScheduleRetry(v, purpose, now, later))
  {
    hide QueueRefresh;
    if IsRunning(v) {
      var attempt := if v.retryAttempt < RETRY_STEPS then v.retryAttempt + 1 else v.retryAttempt;
      QueueKeeps(v.(retryAttempt := attempt), RetryDelay(v.retryAttempt), purpose, now, later);
    }
  }

  lemma GatesKeep(v: Inventory, on: bool, now: nat)
    requires Inv(v)
    ensures Inv(Start(v, now)) && Inv(Stop(v))
    ensures Inv(SetAuthorized(v, on, now)) && Inv(SetEnabled(v, on, now)) && Inv(SetSuspended(v, on, now))
  {
  }

  lemma PreemptKeeps(v: Inventory, now: nat, later: nat)
    requires Inv(v)
    ensures Inv(Preempt(v, now, later))
  {
    hide QueueRefresh;
    var suspended := SetSuspended(v, true, now);
    GatesKeep(v, true, now);
    QueueKeeps(CancelRequest(suspended), RECHECK_DELAY_MS, Reconcile, now, later);
  }

  lemma RequestKeeps(v: Inventory, force: bool, purpose: Purpose, now: nat, later: nat)
    requires Inv(v)
    ensures Inv(RequestRefresh(v, force, purpose, now, later))
  {
    hide QueueRefresh;
    QueueKeeps(v, 1, purpose, now, later);
  }

  lemma SourceKeeps(v: Inventory, now: nat, later: nat)
    requires Inv(v) && v.source.Some?
    ensures Inv(SourceFired(v, now, later))
  {
  }

  lemma FinishKeeps(v: Inventory, id: nat)
    requires Inv(v)
    ensures Inv(Finish(v, id))
  {
  }

  lemma ResultKeeps(v: Inventory, id: nat, reply: Reply, now: nat, later: nat)
    requires Inv(v)
    ensures Inv(ResultArrived(v, id, reply, now, later))
  {
    hide Finish, ScheduleRetry;
    var received := v.(outstanding := v.outstanding - {id});
    FinishKeeps(received.(retryAttempt := 0), id);
    FinishKeeps(received, id);
    RetryKeeps(received, v.request.purpose, now, later);
    FinishKeeps(ScheduleRetry(received, v.request.purpose, now, later), id);
  }

  lemma ResumeKeeps(v: Inventory, dispatch: bool, now: nat)
    requires Inv(v) && v.frames != []
    ensures Inv(Resume(v, dispatch, now))
  {
    var top, below := v.frames[|v.frames| - 1], v.(frames := v.frames[..|v.frames| - 1]);
    assert v.frames == below.frames + [top];
    if top.FinishAnnounced? {
      ScheduleArms(below, now);
    } else {
      assert Inv(below);
      if top.Asked? || top.Refused? {
        FinishKeeps(below, top.id);
      }
    }
  }

  lemma ExecuteKeeps(v: Inventory, step: Step, now: nat, later: nat)
    requires Inv(v) && Enabled(v, step)
    ensures Inv(Execute(v, step, now, later))
  {
    hide Inv, Start, Stop, SetAuthorized, SetEnabled, SetSuspended, Preempt, QueueRefresh, ScheduleRetry,
         RequestRefresh,
         SourceFired, ResultArrived, Resume;
    match step {
      case StepStart => GatesKeep(v, true, now);
      case StepStop => GatesKeep(v, true, now);
      case StepSetAuthorized(on) => GatesKeep(v, on, now);
      case StepSetEnabled(on) => GatesKeep(v, on, now);
      case StepSetSuspended(on) => GatesKeep(v, on, now);
      case StepPreempt => PreemptKeeps(v, now, later);
      case StepQueue(delay, purpose) => QueueKeeps(v, delay, purpose, now, later);
      case StepRetry(purpose) => RetryKeeps(v, purpose, now, later);
      case StepRequest(force, purpose) => RequestKeeps(v, force, purpose, now, later);
      case StepSource => SourceKeeps(v, now, later);
      case StepResult(id, reply) => ResultKeeps(v, id, reply, now, later);
      case StepResume(dispatch) => ResumeKeeps(v, dispatch, now);
    }
  }

  /** States, steps and clock readings of a run from creation. Each step reads the
      clock at most twice, and the clock never goes back. */
  predicate Run(trace: seq<Inventory>, steps: seq<Step>, times: seq<(nat, nat)>) {
    && |trace| == |steps| + 1 && |times| == |steps| && trace[0] == NEW_INVENTORY
    && forall k | 0 <= k < |steps| ::
         && times[k].0 <= times[k].1 && (k + 1 < |steps| ==> times[k].1 <= times[k + 1].0)
         && Enabled(trace[k], steps[k]) && trace[k + 1] == Execute(trace[k], steps[k], times[k].0, times[k].1)
  }

  lemma {:induction false} RunKeeps(trace: seq<Inventory>, steps: seq<Step>, times: seq<(nat, nat)>, k: nat)
    requires Run(trace, steps, times) && k <= |steps|
    ensures Inv(trace[k])
  {
    hide Execute, Enabled, ArmedInv, RequestInv;
    if k == 0 {
      NewInv();
    } else {
      RunKeeps(trace, steps, times, k - 1);
      ExecuteKeeps(trace[k - 1], steps[k - 1], times[k - 1].0, times[k - 1].1);
    }
  }

  lemma NewInv()
    ensures Inv(NEW_INVENTORY)
  {
  }

  /** Queued work is never forgotten: between main-loop steps, whenever nothing
      stands in its way, a timer is armed for it. */
  lemma QueuedWorkIsArmed(trace: seq<Inventory>, steps: seq<Step>, times: seq<(nat, nat)>)
    requires Run(trace, steps, times)
    ensures var v := trace[|steps|];
            v.frames == [] && IsOpen(v) && v.queue.dirty && !v.request.pending ==> v.source.Some?
  {
    RunKeeps(trace, steps, times, |steps|);
  }

  // ------------------------------------------------------------------------
  // Coalescing
  // ------------------------------------------------------------------------

  /** No timer is armed for later than what is now made of the queued delay. */
  predicate Timely(v: Inventory, now: nat) {
    v.source.Some? ==> v.source.value <= now + AtLeastOne(v.queue.delay) * 1000
  }

  lemma TimelyStep(v: Inventory, step: Step, now: nat, later: nat)
    requires Inv(v) && Enabled(v, step) && Timely(v, now) && now <= later
    ensures Timely(Execute(v, step, now, later), later)
  {
  }

  lemma {:induction false} RunIsTimely(trace: seq<Inventory>, steps: seq<Step>, times: seq<(nat, nat)>, k: nat)
    requires Run(trace, steps, times) && k < |steps|
    ensures Timely(trace[k], times[k].0)
  {
    hide Execute, Enabled, Inv;
    if k > 0 {
      RunIsTimely(trace, steps, times, k - 1);
      RunKeeps(trace, steps, times, k - 1);
      TimelyStep(trace[k - 1], steps[k - 1], times[k - 1].0, times[k - 1].1);
    }
  }

  /** Queuing over an armed timer. The purpose is never lowered. The timer is left
      alone unless the new refresh is wanted earlier; then it is dropped while
      suspended, and otherwise armed again. It ends up later than it was exactly
      when more time passes between the two readings of the clock than the new
      refresh was wanted earlier. */
  lemma QueueOverArmed(v: Inventory, delay: nat, purpose: Purpose, now: nat, later: nat)
    requires Inv(v) && v.source.Some? && Timely(v, now) && now <= later
    ensures var after, armed := QueueRefresh(v, delay, purpose, now, later), v.source.value;
            var wanted := now + AtLeastOne(delay) * 1000;
            && after.queue.dirty && after.queue.purpose == Max(v.queue.purpose, purpose)
            && (wanted >= armed ==> after.source == v.source)
            && (after.source.None? <==> v.gates.suspended && wanted < armed)
            && (after.source.Some? && after.source.value > armed
                <==> !v.gates.suspended && wanted < armed && later - now > armed - wanted)
  {
    if now + AtLeastOne(delay) * 1000 < v.source.value {
      assert AtLeastOne(delay) < AtLeastOne(v.queue.delay);
    }
  }

  lemma RetryOverArmed(v: Inventory, purpose: Purpose, now: nat, later: nat)
    requires Inv(v) && v.source.Some? && Timely(v, now) && now <= later
    ensures var after, armed := ScheduleRetry(v, purpose, now, later), v.source.value;
            var wanted := now + AtLeastOne(RetryDelay(v.retryAttempt)) * 1000;
            after.source.Some? && after.source.value > armed
            <==> !v.gates.suspended && wanted < armed && later - now > armed - wanted
  {
    var attempt := if v.retryAttempt < RETRY_STEPS then v.retryAttempt + 1 else v.retryAttempt;
    QueueOverArmed(v.(retryAttempt := attempt), RetryDelay(v.retryAttempt), purpose, now, later);
  }

  /** The delay a step queues a refresh with, if it may do so over an armed timer. */
  function QueuedDelay(v: Inventory, step: Step): Option<nat> {
    match step
    case StepQueue(delay, _) => Some(delay)
    case StepRetry(_) => Some(RetryDelay(v.retryAttempt))
    case _ => None
  }

  lemma OnlyQueuingMoves(v: Inventory, step: Step, now: nat, later: nat)
    requires Inv(v) && Enabled(v, step) && v.source.Some? && QueuedDelay(v, step).None?
    ensures var after := Execute(v, step, now, later); after.source.Some? ==> after.source == v.source
  {
  }

  /** An armed timer in any run: the steps that make it later are exactly those that
      queue a refresh for an earlier time, unsuspended, and lose more time between
      their two readings of the clock than they gain. */
  lemma ArmedTimerMovesLater(trace: seq<Inventory>, steps: seq<Step>, times: seq<(nat, nat)>, k: nat)
    requires Run(trace, steps, times) && k < |steps| && trace[k].source.Some?
    ensures var v, after, delay := trace[k], trace[k + 1], QueuedDelay(trace[k], steps[k]);
            var (now, later) := times[k];
            after.source.Some? && after.source.value > v.source.value
            <==> && delay.Some? && !v.gates.suspended
                 && now + AtLeastOne(delay.value) * 1000 < v.source.value
                 && later - now > v.source.value - (now + AtLeastOne(delay.value) * 1000)
  {
    hide Inv, QueueRefresh;
    var v, step, now, later := trace[k], steps[k], times[k].0, times[k].1;
    RunKeeps(trace, steps, times, k);
    RunIsTimely(trace, steps, times, k);
    match step {
      case StepQueue(delay, purpose) => QueueOverArmed(v, delay, purpose, now, later);
      case StepRetry(purpose) => RetryOverArmed(v, purpose, now, later);
      case _ => OnlyQueuingMoves(v, step, now, later);
    }
  }

  /** A timer over queued work, in an inventory with these gates. */
  function Waiting(gates: Gates, queue: Queue, source: Option<nat>): Inventory {
    NEW_INVENTORY.(gates := gates, queue := queue, source := source)
  }

  const OPEN_GATES := Gates(true, true, false, true, false)

  const SLIP_TRACE :=
    [NEW_INVENTORY,
     Waiting(Gates(false, false, false, true, false), CLEAN, None),
     Waiting(Gates(true, false, false, true, false), CLEAN, None),
     Waiting(OPEN_GATES, CLEAN, None),
     Waiting(OPEN_GATES, Queue(true, 4, Reconcile), Some(5000)),
     Waiting(OPEN_GATES, Queue(true, 3, Reconcile), Some(5001))]

  const SLIP_STEPS :=
    [StepStart, StepSetAuthorized(true), StepSetEnabled(true), StepQueue(4, Reconcile), StepQueue(3, Reconcile)]

  const SLIP_TIMES: seq<(nat, nat)> := [(0, 0), (0, 0), (0, 0), (1000, 1000), (1999, 2001)]

  lemma SlipStep(k: nat)
    requires k < |SLIP_STEPS|
    ensures Enabled(SLIP_TRACE[k], SLIP_STEPS[k])
    ensures SLIP_TRACE[k + 1] == Execute(SLIP_TRACE[k], SLIP_STEPS[k], SLIP_TIMES[k].0, SLIP_TIMES[k].1)
  {
  }

  /** It does happen: in a run from creation a timer armed for 5000, for a delay of
      four milliseconds queued at 1000, is armed anew for 5001 when three are queued
      between 1999 and 2001. */
  lemma ClockSlipMovesTimer()
    ensures exists trace: seq<Inventory>, steps: seq<Step>, times: seq<(nat, nat)> ::
              && Run(trace, steps, times) && |steps| == 5
              && trace[4].source == Some(5000) && trace[5].source == Some(5001)
  {
    hide Execute, Enabled;
    forall k | 0 <= k < |SLIP_STEPS|
      ensures Enabled(SLIP_TRACE[k], SLIP_STEPS[k])
      ensures SLIP_TRACE[k + 1] == Execute(SLIP_TRACE[k], SLIP_STEPS[k], SLIP_TIMES[k].0, SLIP_TIMES[k].1)
    {
      SlipStep(k);
    }
    assert Run(SLIP_TRACE, SLIP_STEPS, SLIP_TIMES);
    assert SLIP_TRACE[4].source == Some(5000) && SLIP_TRACE[5].source == Some(5001);
  }

  /** Nothing but dispatch and reset lowers the purpose of queued work. */
  lemma PurposeKept(v: Inventory, step: Step, now: nat, later: nat)
    requires Inv(v) && Enabled(v, step) && v.queue.dirty && v.queue.purpose == Visible
    ensures var after := Execute(v, step, now, later);
            || (after.queue.dirty && after.queue.purpose == Visible)
            || (after.request.pending && after.request.purpose == Visible && after.request.id == v.request.id + 1)
            || (step.StepStop? || (step.StepSetAuthorized? && !step.authorized))
  {
  }

  // ------------------------------------------------------------------------
  // Retired requests
  // ------------------------------------------------------------------------

  lemma RetiredStep(v: Inventory, step: Step, now: nat, later: nat, id: nat)
    requires Inv(v) && Enabled(v, step) && !IsCurrent(v, id) && id <= v.request.id
    ensures var after := Execute(v, step, now, later); !IsCurrent(after, id) && id <= after.request.id
  {
  }

  /** A request once retired, by cancellation, by loss of authorization or by its
      result, is never current again, even after authorization is regained. */
  lemma {:induction false} RetiredForever(trace: seq<Inventory>, steps: seq<Step>, times: seq<(nat, nat)>, j: nat,
                                          k: nat, id: nat)
    requires Run(trace, steps, times) && j <= k <= |steps| && !IsCurrent(trace[j], id) && id <= trace[j].request.id
    ensures !IsCurrent(trace[k], id) && id <= trace[k].request.id
    decreases k
  {
    hide Execute, Enabled, Inv, IsCurrent;
    if j < k {
      RetiredForever(trace, steps, times, j, k - 1, id);
      RunKeeps(trace, steps, times, k - 1);
      RetiredStep(trace[k - 1], steps[k - 1], times[k - 1].0, times[k - 1].1, id);
    }
  }

  /** Its result, when it comes at last, changes nothing. */
  lemma RetiredResultIgnored(v: Inventory, id: nat, reply: Reply, now: nat, later: nat)
    requires !IsCurrent(v, id)
    ensures ResultArrived(v, id, reply, now, later) == v.(outstanding := v.outstanding - {id})
  {
  }

  // ------------------------------------------------------------------------
  // The object
  // ------------------------------------------------------------------------

  class InventoryObject {
    var dirty: bool
    var dirtyDelay: nat
    var queuedPurpose: Purpose
    var refreshSource: Option<nat>
    var requestId: nat
    var pending: bool
    var pendingPurpose: Purpose
    var lastAttempt: nat
    var retryAttempt: nat
    var authorized: bool
    var enabled: bool
    var suspended: bool
    var started: bool
    var stopping: bool
    var outstanding: set<nat>
    var frames: seq<Frame>

    ghost function View(): Inventory
      reads this
    {
      Inventory(Queue(dirty, dirtyDelay, queuedPurpose), refreshSource,
                Request(requestId, pending, pendingPurpose, lastAttempt),
                retryAttempt, Gates(authorized, enabled, suspended, started, stopping), outstanding, frames)
    }

    constructor ()
      ensures View() == NEW_INVENTORY
    {
      dirty, dirtyDelay, queuedPurpose, refreshSource := false, 0, Reconcile, None;
      requestId, pending, pendingPurpose, lastAttempt, retryAttempt := 0, false, Reconcile, 0, 0;
      authorized, enabled, suspended, started, stopping := false, false, false, false, false;
      outstanding, frames := {}, [];
    }

    predicate Running()
      reads this
      ensures Running() == IsRunning(View())
    {
      started && !stopping
    }

    predicate Current(id: nat)
      reads this
      ensures Current(id) == IsCurrent(View(), id)
    {
      Running() && authorized && pending && requestId == id
    }

    method ScheduleQueuedRefresh(now: nat)
      modifies this`refreshSource
      ensures View() == Schedule(old(View()), now)
    {
      if !Running() || !authorized || !enabled || suspended || !dirty || pending || refreshSource.Some? {
        return;
      }
      refreshSource := Some(now + AtLeastOne(dirtyDelay) * 1000);
    }

    method QueueRefreshIn(delayMs: nat, purpose: Purpose, now: nat, later: nat)
      modifies this`dirty, this`dirtyDelay, this`queuedPurpose, this`refreshSource
      ensures View() == QueueRefresh(old(View()), delayMs, purpose, now, later)
    {
      if !Running() {
        return;
      }
      var delay := AtLeastOne(delayMs);
      var requested := now + delay * 1000;
      var rearm := refreshSource.Some? && requested < refreshSource.value;
      if !dirty || dirtyDelay == 0 || delay < dirtyDelay {
        dirtyDelay := delay;
      }
      dirty := true;
      queuedPurpose := Max(queuedPurpose, purpose);
      if rearm {
        refreshSource := None;
      }
      ScheduleQueuedRefresh(later);
    }

    method Retry(purpose: Purpose, now: nat, later: nat)
      modifies this
      ensures View() == ScheduleRetry(old(View()), purpose, now, later)
    {
      if !Running() {
        return;
      }
      var delay := RetryDelay(retryAttempt);
      if retryAttempt < RETRY_STEPS {
        retryAttempt := retryAttempt + 1;
      }
      QueueRefreshIn(delay, purpose, now, later);
    }

    method CancelPending()
      modifies this`pending, this`pendingPurpose
      ensures View() == CancelRequest(old(View()))
    {
      pending, pendingPurpose := false, Reconcile;
    }

    method CleanQueue()
      modifies this`dirty, this`dirtyDelay, this`queuedPurpose, this`refreshSource
      ensures View() == old(View()).(queue := CLEAN, source := None)
    {
      dirty, dirtyDelay, queuedPurpose, refreshSource := false, 0, Reconcile, None;
    }

    method ResetAll()
      modifies this
      ensures View() == Reset(old(View()))
    {
      CleanQueue();
      CancelPending();
      retryAttempt, lastAttempt := 0, 0;
    }

    method SwitchOn(now: nat)
      modifies this
      ensures View() == Start(old(View()), now)
    {
      if started || stopping {
        return;
      }
      started := true;
      ScheduleQueuedRefresh(now);
    }

    method SwitchOff()
      modifies this
      ensures View() == Stop(old(View()))
    {
      if stopping {
        return;
      }
      stopping, started, authorized, enabled := true, false, false, false;
      ResetAll();
    }

    method Authorize(on: bool, now: nat)
      modifies this
      ensures View() == SetAuthorized(old(View()), on, now)
    {
      if stopping {
        return;
      }
      authorized := on;
      if on {
        ScheduleQueuedRefresh(now);
      } else {
        ResetAll();
      }
    }

    method Enable(on: bool, now: nat)
      modifies this
      ensures View() == SetEnabled(old(View()), on, now)
    {
      if stopping || enabled == on {
        return;
      }
      enabled := on;
      if !on {
        refreshSource := None;
        return;
      }
      retryAttempt := 0;
      ScheduleQueuedRefresh(now);
    }

    method Suspend(on: bool, now: nat)
      modifies this
      ensures View() == SetSuspended(old(View()), on, now)
    {
      if stopping || suspended == on {
        return;
      }
      suspended := on;
      if !on {
        ScheduleQueuedRefresh(now);
      }
    }

    method PreemptFor(now: nat, later: nat)
      modifies this
      ensures View() == Preempt(old(View()), now, later)
    {
      if !Running() {
        return;
      }
      Suspend(true, now);
      if !pending {
        return;
      }
      CancelPending();
      QueueRefreshIn(RECHECK_DELAY_MS, Reconcile, now, later);
    }

    /** A new request, up to the announcement that it started. */
    method Begin(purpose: Purpose, now: nat)
      modifies this
      ensures View() == BeginRequest(old(View()), purpose, now)
    {
      var effective := Max(purpose, queuedPurpose);
      CleanQueue();
      requestId := requestId + 1;
      pending, pendingPurpose, lastAttempt := true, effective, now;
      frames := frames + [Announced(requestId)];
    }

    method RequestNow(force: bool, purpose: Purpose, now: nat, later: nat)
      modifies this
      ensures View() == RequestRefresh(old(View()), force, purpose, now, later)
    {
      if !Running() || !authorized {
        return;
      }
      if !enabled {
        QueueRefreshIn(1, purpose, now, later);
        return;
      }
      if pending {
        pendingPurpose := Max(pendingPurpose, purpose);
        return;
      }
      if suspended {
        QueueRefreshIn(1, purpose, now, later);
        return;
      }
      if refreshSource.Some? {
        if !force {
          queuedPurpose := Max(queuedPurpose, purpose);
          return;
        }
      }
      if !force && lastAttempt != 0 && now < lastAttempt + REFRESH_INTERVAL_US {
        return;
      }
      Begin(purpose, now);
    }

    method OnSource(now: nat, later: nat)
      requires refreshSource.Some?
      modifies this
      ensures View() == SourceFired(old(View()), now, later)
    {
      refreshSource := None;
      if !Running() || !authorized {
        CleanQueue();
        return;
      }
      if !enabled || suspended {
        return;
      }
      RequestNow(true, queuedPurpose, now, later);
    }

    method FinishRequest(id: nat)
      modifies this
      ensures View() == Finish(old(View()), id)
    {
      if Current(id) {
        CancelPending();
        frames := frames + [FinishAnnounced];
      }
    }

    method OnResult(id: nat, reply: Reply, now: nat, later: nat)
      modifies this
      ensures View() == ResultArrived(old(View()), id, reply, now, later)
    {
      outstanding := outstanding - {id};
      if !Current(id) {
        return;
      }
      match reply {
        case GoodReply =>
          retryAttempt := 0;
          FinishRequest(id);
        case WasCancelled => FinishRequest(id);
        case WasRefused => frames := frames + [Refused(id)];
        case BadReply =>
          Retry(pendingPurpose, now, later);
          FinishRequest(id);
        case OtherFailure =>
          Retry(pendingPurpose, now, later);
          FinishRequest(id);
      }
    }

    /** The operation whose callback returns last goes on. */
    method Continue(dispatch: bool, now: nat)
      requires frames != []
      modifies this
      ensures View() == Resume(old(View()), dispatch, now)
    {
      var top := frames[|frames| - 1];
      frames := frames[..|frames| - 1];
      match top {
        case Announced(id) =>
          if Current(id) {
            frames := frames + [Asked(id)];
          }
        case Asked(id) =>
          if !dispatch {
            FinishRequest(id);
          } else if Current(id) {
            outstanding := outstanding + {id};
          }
        case Refused(id) => FinishRequest(id);
        case FinishAnnounced => ScheduleQueuedRefresh(now);
      }
    }
  }
}
