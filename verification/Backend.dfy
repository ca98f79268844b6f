/** One call to the privileged service: bus acquisition, the method call, its reply,
    the caller's cancellation, the backend's stop and the deadline, in any order.

    `Call` is a call's state as a value, the functions on it are the events, and
    the class `BackendCall` is the object whose callbacks update it. Whatever the
    result callback calls back into happens after the call is complete, and every
    event does nothing more once it has delivered, so a re-entrant call is a later
    step. */
module Backend {
  const GINT_MAX: nat := 0x7FFF_FFFF

  datatype ResultKind = Reply | TimedOut | NotAuthorized | Busy | BusUnavailable | Failed | Cancelled

  datatype Result = Result(kind: ResultKind, serviceReplied: bool)

  /** What the transport is waiting for on behalf of a call. */
  datatype Transport = NotStarted | AwaitBus | AwaitReply | Ended

  datatype Call = Call(
    running: bool,         // the backend has started and not stopped
    transport: Transport,
    deadline: nat,
    deadlineArmed: bool,
    cancelled: bool,       // the call's own token
    callerLinked: bool,
    lifecycleLinked: bool,
    completed: bool,
    results: seq<Result>)  // every result the callback was run with

  function Remaining(now: nat, deadline: nat): (r: nat)
    ensures r == 0 <==> deadline <= now
  {
    if deadline <= now then 0 else if deadline - now < GINT_MAX then deadline - now else GINT_MAX
  }

  function Deliver(c: Call, result: Result): Call {
    if c.completed then c
    else c.(completed := true, deadlineArmed := false, callerLinked := false, lifecycleLinked := false,
            cancelled := c.cancelled || result.kind == TimedOut, results := c.results + [result])
  }

  /** The check every callback starts with: it settles a call that is cancelled or
      late, and otherwise leaves it alone. */
  function Settle(c: Call, now: nat): Call {
    if c.completed then c
    else if !c.running || c.cancelled then Deliver(c, Result(Cancelled, false))
    else if Remaining(now, c.deadline) > 0 then c
    else Deliver(c, Result(TimedOut, false))
  }

  // ------------------------------------------------------------------------
  // Events
  // ------------------------------------------------------------------------

  /** Executing a call on a backend; the budget is 0 for an unknown operation. */
  function Executed(running: bool, alreadyCancelled: bool, start: nat, budget: nat, now: nat): Call {
    var c := Call(running, NotStarted, start + budget, false, alreadyCancelled, true, running, false, []);
    if !running || alreadyCancelled then Deliver(c, Result(Cancelled, false))
    else if budget == 0 then Deliver(c, Result(Failed, false))
    else
      var settled := Settle(c, now);
      if settled.completed then settled else settled.(deadlineArmed := true, transport := AwaitBus)
  }

  datatype Bus = Connected | BusCancelled | NoBus

  function BusReady(c: Call, now: nat, bus: Bus): Call {
    var settled := Settle(c, now).(transport := Ended);
    if settled.completed then settled
    else
      match bus
      case Connected => settled.(transport := AwaitReply)
      case BusCancelled => Deliver(settled, Result(Cancelled, false))
      case NoBus => Deliver(settled, Result(BusUnavailable, false))
  }

  /** How the method call ended: a reply, or an error that is local, a timeout, or
      one of the service's own. */
  datatype Answer =
    | Replied | ErrorCancelled | ErrorTimeout | ServiceNotAuthorized | ServiceBusy | ServiceError | OtherError

  function ResultFor(answer: Answer): Result {
    match answer
    case Replied => Result(Reply, true)
    case ErrorCancelled => Result(Cancelled, false)
    case ErrorTimeout => Result(TimedOut, false)
    case ServiceNotAuthorized => Result(NotAuthorized, true)
    case ServiceBusy => Result(Busy, true)
    case ServiceError => Result(Failed, true)
    case OtherError => Result(Failed, false)
  }

  function ReplyArrived(c: Call, now: nat, answer: Answer): Call {
    Deliver(Settle(c, now).(transport := Ended), ResultFor(answer))
  }

  function CallerCancelled(c: Call): Call {
    c.(cancelled := c.cancelled || c.callerLinked)
  }

  function Stopped(c: Call): Call {
    c.(running := false, cancelled := c.cancelled || c.lifecycleLinked)
  }

  function DeadlineFired(c: Call, now: nat): Call {
    Settle(c, now)
  }

  datatype Event =
    | BusReadyEvent(bus: Bus)
    | ReplyEvent(answer: Answer)
    | CallerCancelEvent
    | StopEvent
    | DeadlineEvent

  /** The transport calls back once for each thing it was asked; the deadline
      source runs only when its time has come and it is still attached. */
  predicate CanHappen(c: Call, now: nat, e: Event) {
    match e
    case BusReadyEvent(_) => c.transport == AwaitBus
    case ReplyEvent(_) => c.transport == AwaitReply
    case DeadlineEvent => c.deadlineArmed && c.deadline <= now
    case _ => true
  }

  function Happen(c: Call, now: nat, e: Event): Call {
    match e
    case BusReadyEvent(bus) => BusReady(c, now, bus)
    case ReplyEvent(answer) => ReplyArrived(c, now, answer)
    case CallerCancelEvent => CallerCancelled(c)
    case StopEvent => Stopped(c)
    case DeadlineEvent => DeadlineFired(c, now)
  }

  // ------------------------------------------------------------------------
  // Every run
  // ------------------------------------------------------------------------

  predicate Inv(c: Call) {
    && (c.completed <==> |c.results| == 1) && |c.results| <= 1
    && (!c.completed ==> c.deadlineArmed && (c.transport == AwaitBus || c.transport == AwaitReply))
    && (c.completed ==> !c.deadlineArmed && !c.callerLinked && !c.lifecycleLinked)
  }

  lemma ExecutedInv(running: bool, alreadyCancelled: bool, start: nat, budget: nat, now: nat)
    ensures Inv(Executed(running, alreadyCancelled, start, budget, now))
  {
  }

  lemma HappenKeeps(c: Call, now: nat, e: Event)
    requires Inv(c) && CanHappen(c, now, e)
    ensures Inv(Happen(c, now, e))
    ensures c.results <= Happen(c, now, e).results
  {
  }

  /** A run: one execution, then events at times that never go back. */
  predicate Run(trace: seq<Call>, times: seq<nat>, events: seq<Event>, running: bool, alreadyCancelled: bool,
                start: nat, budget: nat) {
    && |trace| == |events| + 1 && |times| == |events| + 1 && start <= times[0]
    && trace[0] == Executed(running, alreadyCancelled, start, budget, times[0])
    && forall k | 0 <= k < |events| ::
         times[k] <= times[k + 1] && CanHappen(trace[k], times[k + 1], events[k])
         && trace[k + 1] == Happen(trace[k], times[k + 1], events[k])
  }

  lemma {:induction false} RunKeeps(trace: seq<Call>, times: seq<nat>, events: seq<Event>,
                                    running: bool, alreadyCancelled: bool, start: nat, budget: nat, k: nat)
    requires Run(trace, times, events, running, alreadyCancelled, start, budget) && k <= |events|
    ensures Inv(trace[k])
  {
    hide Inv, Executed, Happen;
    if k == 0 {
      ExecutedInv(running, alreadyCancelled, start, budget, times[0]);
    } else {
      RunKeeps(trace, times, events, running, alreadyCancelled, start, budget, k - 1);
      HappenKeeps(trace[k - 1], times[k], events[k - 1]);
    }
  }

  lemma {:induction false} ResultsOnlyGrow(trace: seq<Call>, times: seq<nat>, events: seq<Event>,
                                           running: bool, alreadyCancelled: bool, start: nat, budget: nat, j: nat,
                                           k: nat)
    requires Run(trace, times, events, running, alreadyCancelled, start, budget) && j <= k <= |events|
    ensures trace[j].results <= trace[k].results
  {
    hide Inv, Executed, Happen;
    if j < k {
      ResultsOnlyGrow(trace, times, events, running, alreadyCancelled, start, budget, j, k - 1);
      RunKeeps(trace, times, events, running, alreadyCancelled, start, budget, k - 1);
      HappenKeeps(trace[k - 1], times[k], events[k - 1]);
    }
  }

  /** Exactly once. In every run the callback has run at most once; until it has,
      the deadline is armed and the transport still owes a callback; once it has,
      its result never changes. */
  lemma ExactlyOnce(trace: seq<Call>, times: seq<nat>, events: seq<Event>,
                    running: bool, alreadyCancelled: bool, start: nat, budget: nat, j: nat, k: nat)
    requires Run(trace, times, events, running, alreadyCancelled, start, budget) && j <= k <= |events|
    ensures |trace[k].results| <= 1
    ensures trace[k].results == [] ==>
              trace[k].deadlineArmed && (trace[k].transport == AwaitBus || trace[k].transport == AwaitReply)
    ensures trace[j].results != [] ==> trace[k].results == trace[j].results
  {
    RunKeeps(trace, times, events, running, alreadyCancelled, start, budget, j);
    RunKeeps(trace, times, events, running, alreadyCancelled, start, budget, k);
    ResultsOnlyGrow(trace, times, events, running, alreadyCancelled, start, budget, j, k);
  }

  /** Each of the two things an undelivered call waits for delivers it: its reply,
      and its deadline. A bus that is ready delivers or brings on the reply. */
  lemma WaitingEnds(c: Call, now: nat)
    requires Inv(c) && !c.completed
    ensures c.deadline <= now ==> |DeadlineFired(c, now).results| == 1
    ensures forall answer :: |ReplyArrived(c, now, answer).results| == 1
    ensures forall bus :: BusReady(c, now, bus).transport == AwaitReply || |BusReady(c, now, bus).results| == 1
  {
  }

  // ------------------------------------------------------------------------
  // At least once
  // ------------------------------------------------------------------------

  /** Calls that are over before anything is asked of the transport. */
  predicate RefusedAtOnce(running: bool, alreadyCancelled: bool, start: nat, budget: nat, now: nat) {
    !running || alreadyCancelled || budget == 0 || start + budget <= now
  }

  /** What brings an open call its result: its deadline, any reply, and a bus that
      fails or comes too late. */
  predicate Settles(c: Call, now: nat, e: Event) {
    match e
    case DeadlineEvent => true
    case ReplyEvent(_) => true
    case BusReadyEvent(bus) => bus != Connected || !c.running || c.cancelled || c.deadline <= now
    case _ => false
  }

  lemma SettlingDelivers(c: Call, now: nat, e: Event)
    requires Inv(c) && CanHappen(c, now, e)
    ensures Happen(c, now, e).completed <==> c.completed || Settles(c, now, e)
  {
  }

  lemma ExecutedCompletes(running: bool, alreadyCancelled: bool, start: nat, budget: nat, now: nat)
    ensures Executed(running, alreadyCancelled, start, budget, now).completed
       <==> RefusedAtOnce(running, alreadyCancelled, start, budget, now)
  {
  }

  /** Exactly when a run has delivered its result: if it was refused at once, or one of
      its events settles it, as the deadline's always does. */
  lemma {:induction false} DeliveredExactly(trace: seq<Call>, times: seq<nat>, events: seq<Event>,
                                            running: bool, alreadyCancelled: bool, start: nat, budget: nat, k: nat)
    requires Run(trace, times, events, running, alreadyCancelled, start, budget) && k <= |events|
    ensures |trace[k].results| == 1
       <==> || RefusedAtOnce(running, alreadyCancelled, start, budget, times[0])
            || exists j :: 0 <= j < k && Settles(trace[j], times[j + 1], events[j])
  {
    hide Executed, Happen, CanHappen, Settles, RefusedAtOnce;
    RunKeeps(trace, times, events, running, alreadyCancelled, start, budget, k);
    if k == 0 {
      ExecutedCompletes(running, alreadyCancelled, start, budget, times[0]);
    } else {
      DeliveredExactly(trace, times, events, running, alreadyCancelled, start, budget, k - 1);
      RunKeeps(trace, times, events, running, alreadyCancelled, start, budget, k - 1);
      SettlingDelivers(trace[k - 1], times[k], events[k - 1]);
    }
  }

  /** How many more events of its own a call can still see. */
  function Owed(c: Call): nat {
    (match c.transport case AwaitBus => 2 case AwaitReply => 1 case _ => 0) + if c.deadlineArmed then 1 else 0
  }

  /** Events of the call itself: not the caller's and not the backend's. */
  function OwnEvents(events: seq<Event>): nat {
    if events == [] then 0
    else
      var last := events[|events| - 1];
      OwnEvents(events[..|events| - 1]) + if last.CallerCancelEvent? || last.StopEvent? then 0 else 1
  }

  lemma ExecutedOwes(running: bool, alreadyCancelled: bool, start: nat, budget: nat, now: nat)
    ensures Owed(Executed(running, alreadyCancelled, start, budget, now)) <= 3
  {
  }

  lemma EventIsPaid(c: Call, now: nat, e: Event)
    requires Inv(c) && CanHappen(c, now, e)
    ensures Owed(Happen(c, now, e)) + (if e.CallerCancelEvent? || e.StopEvent? then 0 else 1) <= Owed(c)
  {
  }

  lemma {:induction false} OwnEventsAreFew(trace: seq<Call>, times: seq<nat>, events: seq<Event>,
                                           running: bool, alreadyCancelled: bool, start: nat, budget: nat, k: nat)
    requires Run(trace, times, events, running, alreadyCancelled, start, budget) && k <= |events|
    ensures OwnEvents(events[..k]) + Owed(trace[k]) <= 3
  {
    hide Happen, CanHappen, Owed, Inv, Settles;
    if k == 0 {
      ExecutedOwes(running, alreadyCancelled, start, budget, times[0]);
    } else {
      OwnEventsAreFew(trace, times, events, running, alreadyCancelled, start, budget, k - 1);
      RunKeeps(trace, times, events, running, alreadyCancelled, start, budget, k - 1);
      EventIsPaid(trace[k - 1], times[k], events[k - 1]);
      assert events[..k][..k - 1] == events[..k - 1];
    }
  }

  /** A run cannot go on without its result. It holds at most three events of its own,
      whatever callers and backend do; once nothing is owed any more there is exactly one
      result; and from the deadline on, the event that brings it is always possible. */
  lemma RunsDeliver(trace: seq<Call>, times: seq<nat>, events: seq<Event>,
                    running: bool, alreadyCancelled: bool, start: nat, budget: nat)
    requires Run(trace, times, events, running, alreadyCancelled, start, budget)
    ensures OwnEvents(events) <= 3
    ensures var last := trace[|events|];
            && (OwnEvents(events) == 3 || Owed(last) == 0 ==> |last.results| == 1)
            && (last.results == [] ==> forall now | last.deadline <= now ::
                  CanHappen(last, now, DeadlineEvent) && |Happen(last, now, DeadlineEvent).results| == 1)
  {
    OwnEventsAreFew(trace, times, events, running, alreadyCancelled, start, budget, |events|);
    RunKeeps(trace, times, events, running, alreadyCancelled, start, budget, |events|);
    assert events[..|events|] == events;
  }

  /** A reply is only ever delivered as one in time, to a caller still waiting. */
  lemma ReplyIsGenuine(c: Call, now: nat, e: Event)
    requires Inv(c) && CanHappen(c, now, e) && !c.completed
    requires Happen(c, now, e).results != [] && Happen(c, now, e).results[0].kind == Reply
    ensures e == ReplyEvent(Replied) && c.running && !c.cancelled && now < c.deadline
  {
  }

  // ------------------------------------------------------------------------
  // The object
  // ------------------------------------------------------------------------

  class BackendObject {
    var started: bool
    var stopping: bool

    predicate IsRunning()
      reads this
    {
      started && !stopping
    }

    constructor ()
      ensures !IsRunning() && !stopping
    {
      started, stopping := false, false;
    }

    method Start()
      modifies this
      ensures stopping == old(stopping) && started == (old(started) || !stopping)
    {
      if !started && !stopping {
        started := true;
      }
    }
  }

  class BackendCall {
    const backend: BackendObject
    var transport: Transport
    var deadline: nat
    var deadlineSource: bool
    var cancelled: bool
    var callerLinked: bool
    var lifecycleLinked: bool
    var completed: bool
    ghost var results: seq<Result>

    ghost function View(): Call
      reads this, backend
    {
      Call(backend.IsRunning(), transport, deadline, deadlineSource, cancelled, callerLinked, lifecycleLinked,
           completed, results)
    }

    method DeliverResult(result: Result)
      modifies this
      ensures View() == Deliver(old(View()), result)
    {
      if completed {
        return;
      }
      completed := true;
      deadlineSource := false;
      callerLinked, lifecycleLinked := false, false;
      if result.kind == TimedOut {
        cancelled := true;
      }
      results := results + [result];
    }

    method CallRemaining(now: nat) returns (remaining: nat)
      modifies this
      ensures View() == Settle(old(View()), now)
      ensures remaining == 0 <==> completed
      ensures remaining > 0 ==> remaining == Remaining(now, deadline)
    {
      if completed {
        return 0;
      }
      if !backend.IsRunning() || cancelled {
        DeliverResult(Result(Cancelled, false));
        return 0;
      }
      remaining := Remaining(now, deadline);
      if remaining > 0 {
        return;
      }
      DeliverResult(Result(TimedOut, false));
    }

    constructor (backend: BackendObject, alreadyCancelled: bool, deadline: nat)
      ensures View()
                == Call(backend.IsRunning(), NotStarted, deadline, false, alreadyCancelled, true, backend.IsRunning(),
                        false, [])
      ensures this.backend == backend
    {
      this.backend, this.deadline := backend, deadline;
      transport, deadlineSource, cancelled := NotStarted, false, alreadyCancelled;
      callerLinked, lifecycleLinked, completed := true, backend.IsRunning(), false;
      results := [];
    }

    method OnDeadline(now: nat)
      modifies this
      ensures View() == DeadlineFired(old(View()), now)
    {
      var _ := CallRemaining(now);
    }

    method OnBusReady(now: nat, bus: Bus)
      requires transport == AwaitBus
      modifies this
      ensures View() == BusReady(old(View()), now, bus)
    {
      var remaining := CallRemaining(now);
      transport := Ended;
      if remaining == 0 {
        return;
      }
      match bus {
        case Connected => transport := AwaitReply;
        case BusCancelled => DeliverResult(Result(Cancelled, false));
        case NoBus => DeliverResult(Result(BusUnavailable, false));
      }
    }

    method OnReply(now: nat, answer: Answer)
      requires transport == AwaitReply
      modifies this
      ensures View() == ReplyArrived(old(View()), now, answer)
    {
      var remaining := CallRemaining(now);
      transport := Ended;
      if remaining == 0 {
        return;
      }
      DeliverResult(ResultFor(answer));
    }

    method OnCallerCancelled()
      modifies this`cancelled
      ensures View() == CallerCancelled(old(View()))
    {
      if callerLinked {
        cancelled := true;
      }
    }

    /** The backend stops: its lifecycle token cancels the call's. */
    method OnBackendStopped()
      modifies this`cancelled, backend
      ensures View() == Stopped(old(View())) && backend.stopping
    {
      backend.stopping, backend.started := true, false;
      if lifecycleLinked {
        cancelled := true;
      }
    }
  }

  method Execute(backend: BackendObject, alreadyCancelled: bool, start: nat, budget: nat, now: nat)
    returns (call: BackendCall)
    ensures fresh(call) && call.backend == backend
    ensures call.View() == Executed(backend.IsRunning(), alreadyCancelled, start, budget, now)
  {
    call := new BackendCall(backend, alreadyCancelled, start + budget);
    if !backend.IsRunning() || alreadyCancelled {
      call.DeliverResult(Result(Cancelled, false));
      return;
    }
    if budget == 0 {
      call.DeliverResult(Result(Failed, false));
      return;
    }
    var remaining := call.CallRemaining(now);
    if remaining == 0 {
      return;
    }
    call.deadlineSource := true;
    call.transport := AwaitBus;
  }
}
