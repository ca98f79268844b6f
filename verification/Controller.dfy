/** The client's controller: one activity at a time, from a user's request to the
    service's last word on it.

    Every callback the controller makes may call back into any of its public
    functions. The code that follows a callback is a frame on a stack: `Resume` runs
    the top one, every other step may come in between. What policy, dialogs and
    monitors answer is a parameter of the step that reads it. Ids never wrap. */
module Controller {
  import opened Amneziawg

  datatype Operation = OpImport | OpReplace | OpUp | OpDown | OpDelete

  datatype Activity =
    | Idle | ImportSelect | ImportLoad | Import | ReplaceConfirm | Replace | Up | Down | DeleteConfirm | Delete

  datatype Action = Action(id: nat, op: Operation, hasConfig: bool)

  /** What is left to do for an action held across a callback. */
  datatype Next =
    | Start          // dispatch it
    | Moved          // dispatch it, if the activity is still the one just entered
    | Asked          // go on dispatching, unless another interaction is active
    | Preempted      // send it, if it is still allowed
    | Without        // end the activity
    | Mutation       // verify the runtime, then end the activity
    | Confirm        // ask for confirmation
    | Probed         // show the confirmation, if it can be shown
    | Unavailable    // end the activity, as the confirmation cannot be shown

  datatype Frame =
    | Began(id: nat, op: Operation)
    | ChooserShown(id: nat)
    | Declining(id: nat)              // a notice, and then the activity ends
    | Held(action: Action, next: Next)
    | Transitioned(id: nat, op: Operation)  // a confirmation is about to be shown
    | Showing(id: nat, op: Operation)       // and has been
    | Verifying(id: nat)
    | AuthorizationLost

  /** What the controller is told during a step. */
  datatype Facts = Facts(handled: bool, allowed: bool, dependencies: bool, checking: bool)

  datatype Controller = Controller(
    started: bool, stopping: bool, authorized: bool,
    activity: Activity, id: nat, origin: Operation,
    pending: Option<Action>, verification: bool,
    calls: seq<Action>,  // mutation calls the backend has not answered yet
    frames: seq<Frame>)

  const NEW_CONTROLLER := Controller(false, false, false, Idle, 0, OpImport, None, false, [], [])

  predicate IsRunning(v: Controller) {
    v.started && !v.stopping
  }

  predicate Matches(v: Controller, id: nat) {
    IsRunning(v) && v.activity != Idle && v.id == id
  }

  function FirstActivity(op: Operation): Activity {
    match op
    case OpImport => ImportSelect
    case OpReplace => ReplaceConfirm
    case OpUp => Up
    case OpDown => Down
    case OpDelete => DeleteConfirm
  }

  /** The activity while an action's call is made. */
  function CallActivity(op: Operation): Activity {
    match op
    case OpImport => Import
    case OpReplace => Replace
    case OpUp => Up
    case OpDown => Down
    case OpDelete => Delete
  }

  function ConfirmActivity(op: Operation): Activity {
    if op == OpDelete then DeleteConfirm else ReplaceConfirm
  }

  predicate IsConfirm(a: Activity) {
    a == ReplaceConfirm || a == DeleteConfirm
  }

  predicate IsMutation(a: Activity) {
    a == Import || a == Replace || a == Up || a == Down || a == Delete
  }

  predicate ConfirmationMatches(v: Controller, op: Operation, id: nat) {
    Matches(v, id) && v.pending.Some? && v.pending.value.id == id && v.pending.value.op == op
    && v.activity == ConfirmActivity(op) && (op == OpImport || op == OpDelete)
  }

  predicate Allowed(v: Controller, continuing: bool, facts: Facts) {
    facts.allowed && IsRunning(v) && v.authorized && (continuing || v.activity == Idle)
  }

  function Push(v: Controller, f: Frame): Controller {
    v.(frames := v.frames + [f])
  }

  // ------------------------------------------------------------------------
  // Ending and completing
  // ------------------------------------------------------------------------

  function Finish(v: Controller, id: nat): Controller {
    if Matches(v, id) then v.(activity := Idle, verification := false) else v
  }

  /** Runtime verification first; the activity ends when it is over. */
  function CompleteMutation(v: Controller, a: Action): Controller {
    if Matches(v, a.id) then Push(v.(verification := IsMutation(v.activity)), Verifying(a.id)) else v
  }

  function RequestConfirmation(v: Controller, a: Action): Controller {
    if Matches(v, a.id) then Push(v, Held(a, Probed)) else v
  }

  function Dispatch(v: Controller, a: Action): Controller {
    if !Matches(v, a.id) then v
    else if (a.op == OpImport || a.op == OpReplace) && !a.hasConfig then Push(v, Held(a, Without))
    else Push(v, Held(a, Asked))
  }

  // ------------------------------------------------------------------------
  // Public functions and callbacks
  // ------------------------------------------------------------------------

  function StartUp(v: Controller): Controller {
    if v.started || v.stopping then v else v.(started := true)
  }

  function Stop(v: Controller): Controller {
    if v.stopping then v
    else v.(stopping := true, started := false, id := v.id + 1, activity := Idle, verification := false,
            authorized := false, pending := None)
  }

  function SetAuthorized(v: Controller, authorized: bool): Controller {
    if !IsRunning(v) then v
    else if authorized then v.(authorized := true)
    else
      var interacting := v.activity == ImportSelect || v.activity == ImportLoad || IsConfirm(v.activity);
      Push(if interacting then v.(authorized := false, activity := Idle, pending := None) else v.(authorized := false),
           AuthorizationLost)
  }

  function RuntimeChanged(v: Controller, facts: Facts): Controller {
    if IsRunning(v) && v.verification && (!v.authorized || !facts.checking) then Finish(v, v.id) else v
  }

  function Begin(v: Controller, op: Operation, facts: Facts): Controller {
    if IsRunning(v) && v.activity == Idle && Allowed(v, false, facts) then
      Push(v.(id := v.id + 1, activity := FirstActivity(op), origin := op), Began(v.id + 1, op))
    else v
  }

  function FileSelected(v: Controller, id: nat, valid: bool): Controller {
    if !Matches(v, id) || v.activity != ImportSelect then v
    else if valid then v.(activity := ImportLoad)
    else Push(v, Declining(id))
  }

  function SelectionCancelled(v: Controller, id: nat): Controller {
    if Matches(v, id) && v.activity == ImportSelect then Finish(v, id) else v
  }

  function Loaded(v: Controller, id: nat, hasConfig: bool): Controller {
    if Matches(v, id) && v.activity == ImportLoad then
      Push(v.(activity := Import), Held(Action(id, OpImport, hasConfig), Moved))
    else v
  }

  function LoadFailed(v: Controller, id: nat): Controller {
    if Matches(v, id) && v.activity == ImportLoad then Push(v, Declining(id)) else v
  }

  function CancelImport(v: Controller): Controller {
    if IsRunning(v) && (v.activity == ImportSelect || v.activity == ImportLoad) then Push(v, Declining(v.id)) else v
  }

  /** A dialog's answer; `op` tells the two confirmations apart by the operation
      that waits for them. */
  function Response(v: Controller, op: Operation, id: nat, confirmed: bool, facts: Facts): Controller {
    if !ConfirmationMatches(v, op, id) then v
    else
      var a, taken := v.pending.value, v.(pending := None);
      if op == OpImport then
        if !confirmed then CompleteMutation(taken, a)
        else if !Allowed(v, true, facts) then Push(taken, Held(a, Mutation))
        else Push(taken.(activity := Replace), Held(a.(op := OpReplace), Moved))
      else if !confirmed then Finish(taken, id)
      else if !Allowed(v, true, facts) then Push(taken, Held(a, Without))
      else Push(taken.(activity := Delete), Held(a, Moved))
  }

  datatype Outcome = WasCancelled | WasRefused | Succeeded | NeedsReplacement | OtherOutcome

  /** The backend's only answer to a call. */
  function Result(v: Controller, index: nat, outcome: Outcome): Controller
    requires index < |v.calls|
  {
    var a, received := v.calls[index], v.(calls := v.calls[..index] + v.calls[index + 1..]);
    if !Matches(v, a.id) then received
    else
      match outcome
      case WasCancelled => Finish(received, a.id)
      case WasRefused => Push(received, Held(a, Without))
      case Succeeded => Push(received, Held(a, if a.op == OpDelete then Without else Mutation))
      case NeedsReplacement => Push(received, Held(a, if a.op == OpImport then Confirm else Mutation))
      case OtherOutcome => Push(received, Held(a, Mutation))
  }

  // ------------------------------------------------------------------------
  // After a callback
  // ------------------------------------------------------------------------

  function Show(v: Controller, id: nat, op: Operation): Controller {
    if ConfirmationMatches(v, op, id) && v.authorized then Push(v, Showing(id, op)) else v
  }

  function ResumeBegan(v: Controller, id: nat, op: Operation): Controller {
    if !Matches(v, id) || v.activity != FirstActivity(op) then v
    else
      match op
      case OpImport => Push(v, ChooserShown(id))
      case OpDelete => RequestConfirmation(v, Action(id, OpDelete, false))
      case _ => Push(v, Held(Action(id, op, false), Start))
  }

  function ResumeProbed(v: Controller, a: Action, facts: Facts): Controller {
    if !Matches(v, a.id) then v
    else if !v.authorized then Push(v, Held(a, Without))
    else if !facts.handled then Push(v, Held(a, Unavailable))
    else if v.activity != ConfirmActivity(a.op) then
      Push(v.(pending := Some(a), activity := ConfirmActivity(a.op)), Transitioned(a.id, a.op))
    else Show(v.(pending := Some(a)), a.id, a.op)
  }

  function ResumePreempted(v: Controller, a: Action, facts: Facts): Controller {
    if !Matches(v, a.id) then v
    else if !v.authorized || (a.op != OpDown && !Allowed(v, true, facts)) || !facts.dependencies then
      Push(v, Held(a, Without))
    else v.(calls := v.calls + [a])
  }

  function ResumeHeld(v: Controller, a: Action, next: Next, facts: Facts): Controller {
    match next
    case Start => Dispatch(v, a)
    case Moved =>
      if Matches(v, a.id) && v.activity == CallActivity(a.op) then
        (if a.op == OpDelete then Push(v, Held(a, Start)) else Dispatch(v, a))
      else v
    case Asked =>
      if facts.handled then Push(v, Held(a, Without))
      else if Matches(v, a.id) then Push(v, Held(a, Preempted))
      else v
    case Preempted => ResumePreempted(v, a, facts)
    case Without => Finish(v, a.id)
    case Mutation => CompleteMutation(v, a)
    case Confirm => RequestConfirmation(v, a)
    case Probed => ResumeProbed(v, a, facts)
    case Unavailable => if a.op == OpDelete then Finish(v, a.id) else CompleteMutation(v, a)
  }

  /** After the changed callback of the transition into a confirmation. */
  function ResumeTransitioned(v: Controller, id: nat, op: Operation): Controller {
    if Matches(v, id) && v.activity == ConfirmActivity(op) then Show(v, id, op)
    else if v.pending.Some? && v.pending.value.id == id then v.(pending := None)
    else v
  }

  function ResumeShowing(v: Controller, id: nat, op: Operation, facts: Facts): Controller {
    if ConfirmationMatches(v, op, id) && !facts.handled then
      Push(v.(pending := None), Held(v.pending.value, Unavailable))
    else v
  }

  function Resume(whole: Controller, facts: Facts): Controller
    requires whole.frames != []
  {
    var v := whole.(frames := whole.frames[..|whole.frames| - 1]);
    match whole.frames[|whole.frames| - 1]
    case Began(id, op) => ResumeBegan(v, id, op)
    case ChooserShown(id) => if !facts.handled && Matches(v, id) then Push(v, Declining(id)) else v
    case Declining(id) => Finish(v, id)
    case Held(a, next) => ResumeHeld(v, a, next, facts)
    case Transitioned(id, op) => ResumeTransitioned(v, id, op)
    case Showing(id, op) => ResumeShowing(v, id, op, facts)
    case Verifying(id) => if !v.verification || !v.authorized || !facts.checking then Finish(v, id) else v
    case AuthorizationLost => if v.verification then Finish(v, v.id) else v
  }

  datatype Step =
    | StepStart | StepStop
    | StepSetAuthorized(authorized: bool)
    | StepRuntimeChanged
    | StepBegin(op: Operation)
    | StepFileSelected(id: nat, valid: bool)
    | StepSelectionCancelled(id: nat)
    | StepLoaded(id: nat, hasConfig: bool)
    | StepLoadFailed(id: nat)
    | StepCancelImport
    | StepResponse(op: Operation, id: nat, confirmed: bool)
    | StepResult(index: nat, outcome: Outcome)
    | StepResume

  predicate Enabled(v: Controller, step: Step) {
    match step
    case StepBegin(op) => op != OpReplace
    case StepResult(index, _) => index < |v.calls|
    case StepResume => v.frames != []
    case _ => true
  }

  function Execute(v: Controller, step: Step, facts: Facts): Controller
    requires Enabled(v, step)
  {
    match step
    case StepStart => StartUp(v)
    case StepStop => Stop(v)
    case StepSetAuthorized(authorized) => SetAuthorized(v, authorized)
    case StepRuntimeChanged => RuntimeChanged(v, facts)
    case StepBegin(op) => Begin(v, op, facts)
    case StepFileSelected(id, valid) => FileSelected(v, id, valid)
    case StepSelectionCancelled(id) => SelectionCancelled(v, id)
    case StepLoaded(id, hasConfig) => Loaded(v, id, hasConfig)
    case StepLoadFailed(id) => LoadFailed(v, id)
    case StepCancelImport => CancelImport(v)
    case StepResponse(op, id, confirmed) => Response(v, op, id, confirmed, facts)
    case StepResult(index, outcome) => Result(v, index, outcome)
    case StepResume => Resume(v, facts)
  }

  // ------------------------------------------------------------------------
  // Ownership
  // ------------------------------------------------------------------------

  function IdOf(f: Frame): nat {
    match f
    case Held(a, _) => a.id
    case AuthorizationLost => 0
    case _ => f.id
  }

  /** Frames whose operation is responsible for the activity they name. */
  predicate Holds(f: Frame, id: nat) {
    || (f.Held? && f.action.id == id)
    || (f.Began? && f.id == id && f.op != OpImport)
  }

  function Holders(frames: seq<Frame>, id: nat): nat {
    if frames == [] then 0
    else Holders(frames[..|frames| - 1], id) + if Holds(frames[|frames| - 1], id) then 1 else 0
  }

  predicate OpFits(origin: Operation, op: Operation) {
    op == origin || (origin == OpImport && op == OpReplace)
  }

  predicate ActivityFits(origin: Operation, activity: Activity) {
    match activity
    case Idle => true
    case Up => origin == OpUp
    case Down => origin == OpDown
    case DeleteConfirm => origin == OpDelete
    case Delete => origin == OpDelete
    case _ => origin == OpImport
  }

  predicate NextFits(a: Action, next: Next, activity: Activity) {
    match next
    case Confirm => a.op == OpImport && activity == Import
    case Probed => (a.op == OpImport && activity == Import) || (a.op == OpDelete && activity == DeleteConfirm)
    case Unavailable =>
      (a.op == OpImport && (activity == Import || activity == ReplaceConfirm))
      || (a.op == OpDelete && activity == DeleteConfirm)
    case Without => IsMutation(activity) || IsConfirm(activity)
    case Mutation => IsMutation(activity) || IsConfirm(activity)
    case _ => activity == CallActivity(a.op)
  }

  /** What a frame of the current activity knows about it. */
  predicate FrameFits(f: Frame, origin: Operation, activity: Activity) {
    match f
    case Began(_, op) => op == origin && (op != OpImport ==> activity == FirstActivity(op))
    case Held(a, next) => OpFits(origin, a.op) && NextFits(a, next, activity)
    case Transitioned(_, op) => op == origin
    case Showing(_, op) => op == origin
    case _ => true
  }

  predicate FramesFit(v: Controller) {
    forall i | 0 <= i < |v.frames| && IdOf(v.frames[i]) == v.id :: FrameFits(v.frames[i], v.origin, v.activity)
  }

  predicate IdsOk(v: Controller) {
    && (forall i | 0 <= i < |v.frames| :: IdOf(v.frames[i]) <= v.id)
    && (forall i | 0 <= i < |v.calls| :: v.calls[i].id <= v.id)
  }

  /** Who is responsible for the current activity. */
  predicate Owned(v: Controller) {
    var held := Holders(v.frames, v.id);
    && ActivityFits(v.origin, v.activity)
    && (v.activity == Idle ==> v.calls == [] && v.pending.None? && !v.verification)
    && (v.activity == ImportSelect || v.activity == ImportLoad ==>
          v.calls == [] && v.pending.None? && !v.verification && held == 0)
    && (IsMutation(v.activity) ==>
          && v.pending.None? && |v.calls| + held == (if v.verification then 0 else 1)
          && (forall i | 0 <= i < |v.calls| ::
                v.calls[i].id == v.id && OpFits(v.origin, v.calls[i].op) && v.activity == CallActivity(v.calls[i].op)))
    && (IsConfirm(v.activity) ==>
          && v.calls == [] && !v.verification
          && (v.pending.Some? ==>
                held == 0 && v.pending.value.id == v.id && v.pending.value.op == v.origin
                && v.activity == ConfirmActivity(v.origin))
          && (v.pending.None? ==> held == 1 || (held == 0 && Verifying(v.id) in v.frames)))
    && (v.activity != Idle && Verifying(v.id) in v.frames ==>
          v.verification || (IsConfirm(v.activity) && v.pending.None? && held == 0))
  }

  predicate Inv(v: Controller) {
    && IdsOk(v) && |v.calls| <= 1 && v.origin != OpReplace
    && (IsRunning(v) ==> Owned(v) && (v.activity != Idle ==> FramesFit(v)))
    && (!IsRunning(v) ==> v.activity == Idle && v.pending.None? && !v.verification)
    && (!v.started && !v.stopping ==> v.calls == [])
  }

  lemma {:induction false} NoHolder(frames: seq<Frame>, id: nat)
    requires Holders(frames, id) == 0
    ensures forall i | 0 <= i < |frames| :: !Holds(frames[i], id)
  {
    if frames != [] {
      NoHolder(frames[..|frames| - 1], id);
    }
  }

  lemma {:induction false} NoHolderAbove(frames: seq<Frame>, id: nat)
    requires forall i | 0 <= i < |frames| :: IdOf(frames[i]) < id
    ensures Holders(frames, id) == 0
  {
    if frames != [] {
      NoHolderAbove(frames[..|frames| - 1], id);
    }
  }

  lemma HoldersPush(frames: seq<Frame>, f: Frame, id: nat)
    ensures Holders(frames + [f], id) == Holders(frames, id) + if Holds(f, id) then 1 else 0
  {
    assert (frames + [f])[..|frames|] == frames;
  }

  /** With nobody holding the activity it may become another of its origin. */
  lemma FramesStillFit(v: Controller, after: Controller)
    requires FramesFit(v) && Holders(v.frames, v.id) == 0
    requires after.frames == v.frames && after.id == v.id && after.origin == v.origin
    ensures FramesFit(after)
  {
    NoHolder(v.frames, v.id);
  }

  lemma PushFits(v: Controller, f: Frame)
    requires FramesFit(v) && (IdOf(f) == v.id ==> FrameFits(f, v.origin, v.activity))
    ensures FramesFit(Push(v, f))
  {
  }

  // ------------------------------------------------------------------------
  // Every step
  // ------------------------------------------------------------------------

  lemma StopKeeps(v: Controller)
    requires Inv(v)
    ensures Inv(Stop(v)) && Inv(StartUp(v))
  {
  }

  lemma FinishKeeps(v: Controller, id: nat)
    requires Inv(v) && (Matches(v, id) ==> v.calls == [] && v.pending.None?)
    ensures Inv(Finish(v, id))
  {
  }

  /** An activity that ends takes nothing with it, or the rules are broken. */
  lemma FinishBreaks(v: Controller, id: nat)
    requires Inv(v)
    ensures Inv(Finish(v, id)) <==> (Matches(v, id) ==> v.calls == [] && v.pending.None?)
  {
  }

  lemma PushKeeps(v: Controller, f: Frame)
    requires Inv(v) && IdOf(f) <= v.id && !Holds(f, v.id) && !f.Verifying?
    requires IdOf(f) == v.id && IsRunning(v) && v.activity != Idle ==> FrameFits(f, v.origin, v.activity)
    ensures Inv(Push(v, f))
  {
    HoldersPush(v.frames, f, v.id);
    if IsRunning(v) && v.activity != Idle {
      PushFits(v, f);
    }
  }

  lemma SetAuthorizedKeeps(v: Controller, authorized: bool)
    requires Inv(v)
    ensures Inv(SetAuthorized(v, authorized))
  {
    hide FramesFit, Holders;
    SameFrames(v, v.(authorized := true));
    if IsRunning(v) && !authorized {
      var interacting := v.activity == ImportSelect || v.activity == ImportLoad || IsConfirm(v.activity);
      var w := if interacting then v.(authorized := false, activity := Idle, pending := None)
               else v.(authorized := false);
      assert Inv(w) by {
        SameFrames(v, w);
      }
      PushKeeps(w, AuthorizationLost);
    }
  }

  lemma SameFrames(v: Controller, w: Controller)
    requires w.frames == v.frames && w.id == v.id && w.origin == v.origin
    requires w.activity == v.activity || w.activity == Idle
    ensures w.activity != Idle && FramesFit(v) ==> FramesFit(w)
  {
  }

  lemma BeginKeeps(v: Controller, op: Operation, facts: Facts)
    requires Inv(v) && op != OpReplace
    ensures Inv(Begin(v, op, facts))
  {
    hide NextFits, OpFits, Holders, Matches;
    NoHolderAbove(v.frames, v.id + 1);
    HoldersPush(v.frames, Began(v.id + 1, op), v.id + 1);
  }

  lemma SelectKeeps(v: Controller, id: nat, valid: bool)
    requires Inv(v)
    ensures Inv(FileSelected(v, id, valid)) && Inv(SelectionCancelled(v, id)) && Inv(LoadFailed(v, id))
    ensures Inv(CancelImport(v))
  {
    hide FramesFit, Holders;
    if Matches(v, id) && v.activity == ImportSelect {
      FinishKeeps(v, id);
      FramesStillFit(v, v.(activity := ImportLoad));
    }
    if IsRunning(v) && (v.activity == ImportSelect || v.activity == ImportLoad) {
      PushKeeps(v, Declining(v.id));
    }
  }

  /** An activity whose owner has just been taken from it. */
  predicate Unowned(v: Controller) {
    && IdsOk(v) && IsRunning(v) && ActivityFits(v.origin, v.activity) && v.origin != OpReplace
    && (v.activity == ImportLoad || IsMutation(v.activity) || IsConfirm(v.activity))
    && v.calls == [] && v.pending.None? && !v.verification && Holders(v.frames, v.id) == 0 && FramesFit(v)
    && Verifying(v.id) !in v.frames
  }

  lemma LoadIsUnowned(v: Controller)
    requires Inv(v) && IsRunning(v) && v.activity == ImportLoad
    ensures Unowned(v)
  {
  }

  /** A confirmation without its token. */
  lemma TakenIsUnowned(v: Controller)
    requires Inv(v) && IsRunning(v) && v.pending.Some?
    ensures Unowned(v.(pending := None))
  {
    SameFrames(v, v.(pending := None));
  }

  lemma UnownedFinish(v: Controller)
    requires Unowned(v)
    ensures Inv(Finish(v, v.id))
  {
  }

  /** An operation takes responsibility. */
  lemma UnownedHold(v: Controller, activity: Activity, f: Frame)
    requires Unowned(v) && (IsMutation(activity) || IsConfirm(activity)) && ActivityFits(v.origin, activity)
    requires Holds(f, v.id) && IdOf(f) == v.id && FrameFits(f, v.origin, activity)
    ensures Inv(Push(v.(activity := activity), f))
  {
    hide FramesFit, Holders, NextFits, OpFits, ActivityFits;
    var w := v.(activity := activity);
    FramesStillFit(v, w);
    PushFits(w, f);
    HoldersPush(v.frames, f, v.id);
    assert Push(w, f).frames == v.frames + [f];
    assert ActivityFits(v.origin, activity);
  }

  lemma UnownedComplete(v: Controller, a: Action)
    requires Unowned(v) && v.activity != ImportLoad && a.id == v.id
    ensures Inv(CompleteMutation(v, a))
  {
    hide NextFits, FramesFit, Holders, OpFits;
    var w := v.(verification := IsMutation(v.activity));
    SameFrames(v, w);
    PushFits(w, Verifying(a.id));
    HoldersPush(v.frames, Verifying(a.id), v.id);
    assert Push(w, Verifying(a.id)).frames[|v.frames|] == Verifying(v.id);
  }

  /** The token of a confirmation takes it. */
  lemma UnownedConfirm(v: Controller, a: Action)
    requires Unowned(v) && a.id == v.id && a.op == v.origin && (a.op == OpImport || a.op == OpDelete)
    ensures Inv(v.(pending := Some(a), activity := ConfirmActivity(a.op)))
  {
    FramesStillFit(v, v.(pending := Some(a), activity := ConfirmActivity(a.op)));
  }

  lemma UnownedCall(v: Controller, a: Action)
    requires Unowned(v) && a.id == v.id && OpFits(v.origin, a.op) && v.activity == CallActivity(a.op)
    ensures Inv(v.(calls := v.calls + [a]))
  {
    SameFrames(v, v.(calls := v.calls + [a]));
  }

  lemma LoadedKeeps(v: Controller, id: nat, hasConfig: bool)
    requires Inv(v)
    ensures Inv(Loaded(v, id, hasConfig))
  {
    hide Inv, Unowned, Holders;
    if Matches(v, id) && v.activity == ImportLoad {
      LoadIsUnowned(v);
      OriginOf(v);
      UnownedHold(v, Import, Held(Action(id, OpImport, hasConfig), Moved));
    }
  }

  lemma OriginOf(v: Controller)
    requires Inv(v) && IsRunning(v)
    ensures ActivityFits(v.origin, v.activity) && v.origin != OpReplace
    ensures v.pending.Some? ==>
              v.pending.value.id == v.id && v.pending.value.op == v.origin && v.activity == ConfirmActivity(v.origin)
              && IsConfirm(v.activity)
  {
  }

  lemma ResponseKeeps(v: Controller, op: Operation, id: nat, confirmed: bool, facts: Facts)
    requires Inv(v)
    ensures Inv(Response(v, op, id, confirmed, facts))
  {
    hide Inv, Unowned, Holders;
    if ConfirmationMatches(v, op, id) {
      var a, taken := v.pending.value, v.(pending := None);
      TakenIsUnowned(v);
      OriginOf(v);
      UnownedComplete(taken, a);
      UnownedFinish(taken);
      if op == OpImport {
        UnownedHold(taken, v.activity, Held(a, Mutation));
        UnownedHold(taken, Replace, Held(a.(op := OpReplace), Moved));
      } else {
        UnownedHold(taken, v.activity, Held(a, Without));
        UnownedHold(taken, Delete, Held(a, Moved));
      }
    }
  }

  lemma AnsweredIsUnowned(v: Controller, index: nat)
    requires Inv(v) && index < |v.calls|
    ensures var received := v.(calls := v.calls[..index] + v.calls[index + 1..]);
            var a := v.calls[index];
            && received.calls == [] && Matches(received, a.id) == Matches(v, a.id)
            && (IsRunning(v) ==>
                  a.id == v.id && OpFits(v.origin, a.op) && v.activity == CallActivity(a.op) && Unowned(received))
            && (!IsRunning(v) ==> Inv(received))
  {
    var received := v.(calls := v.calls[..index] + v.calls[index + 1..]);
    assert received.calls == [];
    SameFrames(v, received);
  }

  lemma ResultKeeps(v: Controller, index: nat, outcome: Outcome)
    requires Inv(v) && index < |v.calls|
    ensures Inv(Result(v, index, outcome))
  {
    hide Inv, Unowned, Holders;
    var a, received := v.calls[index], v.(calls := v.calls[..index] + v.calls[index + 1..]);
    AnsweredIsUnowned(v, index);
    if IsRunning(v) {
      OriginOf(v);
      UnownedFinish(received);
      UnownedHold(received, v.activity, Held(a, Without));
      UnownedHold(received, v.activity, Held(a, Mutation));
      if a.op == OpImport {
        UnownedHold(received, v.activity, Held(a, Confirm));
      }
    }
  }

  lemma RuntimeChangedKeeps(v: Controller, facts: Facts)
    requires Inv(v)
    ensures Inv(RuntimeChanged(v, facts))
  {
    if v.verification {
      FinishKeeps(v, v.id);
    }
  }

  // ------------------------------------------------------------------------
  // After a callback
  // ------------------------------------------------------------------------

  function Popped(v: Controller): Controller
    requires v.frames != []
  {
    v.(frames := v.frames[..|v.frames| - 1])
  }

  lemma PoppedFits(v: Controller)
    requires v.frames != [] && IdsOk(v)
    ensures IdsOk(Popped(v)) && (FramesFit(v) ==> FramesFit(Popped(v)))
  {
  }

  /** The holder of the current activity leaves the stack. */
  lemma PoppedHolder(v: Controller)
    requires Inv(v) && v.frames != [] && Matches(v, IdOf(v.frames[|v.frames| - 1]))
    requires Holds(v.frames[|v.frames| - 1], v.id)
    ensures Unowned(Popped(v)) && FrameFits(v.frames[|v.frames| - 1], v.origin, v.activity)
  {
    PoppedFits(v);
  }

  /** Any other frame leaves things as they were. */
  lemma PoppedOther(v: Controller)
    requires Inv(v) && v.frames != []
    requires var top := v.frames[|v.frames| - 1];
             !(IsRunning(v) && v.activity != Idle && Holds(top, v.id)) && !top.Verifying?
    ensures Inv(Popped(v))
  {
    PoppedFits(v);
    assert v.frames == Popped(v).frames + [v.frames[|v.frames| - 1]];
  }

  lemma ResumeBeganKeeps(whole: Controller, id: nat, op: Operation)
    requires Inv(whole) && whole.frames != [] && whole.frames[|whole.frames| - 1] == Began(id, op)
    ensures Inv(ResumeBegan(Popped(whole), id, op))
  {
    hide Inv, Unowned, Holders, FramesFit;
    var v := Popped(whole);
    if Matches(whole, id) && op != OpImport {
      PoppedHolder(whole);
      OriginOf(whole);
      if op == OpDelete {
        UnownedHold(v, v.activity, Held(Action(id, op, false), Probed));
      } else {
        UnownedHold(v, v.activity, Held(Action(id, op, false), Start));
      }
    } else {
      PoppedOther(whole);
      TopBelow(whole);
      if Matches(v, id) {
        PushKeeps(v, ChooserShown(id));
      }
    }
  }

  lemma TopBelow(v: Controller)
    requires Inv(v) && v.frames != []
    ensures IdOf(v.frames[|v.frames| - 1]) <= v.id
  {
  }

  lemma DispatchKeeps(v: Controller, a: Action)
    requires Unowned(v) && a.id == v.id && OpFits(v.origin, a.op) && v.activity == CallActivity(a.op)
    ensures Inv(Dispatch(v, a))
  {
    hide Inv, Unowned, Holders, FramesFit;
    UnownedOrigin(v);
    UnownedHold(v, v.activity, Held(a, Without));
    UnownedHold(v, v.activity, Held(a, Asked));
  }

  lemma UnownedOrigin(v: Controller)
    requires Unowned(v)
    ensures IsRunning(v) && ActivityFits(v.origin, v.activity) && v.activity != Idle
  {
  }

  lemma ProbedKeeps(v: Controller, a: Action, facts: Facts)
    requires Unowned(v) && a.id == v.id && FrameFits(Held(a, Probed), v.origin, v.activity)
    ensures Inv(ResumeProbed(v, a, facts))
  {
    hide Inv, Unowned, Holders, FramesFit;
    UnownedOrigin(v);
    UnownedHold(v, v.activity, Held(a, Without));
    UnownedHold(v, v.activity, Held(a, Unavailable));
    UnownedConfirm(v, a);
    var shown := v.(pending := Some(a), activity := ConfirmActivity(a.op));
    PushKeeps(shown, Transitioned(a.id, a.op));
    PushKeeps(shown, Showing(a.id, a.op));
    assert v.activity == ConfirmActivity(a.op) ==> v.(pending := Some(a)) == shown;
  }

  lemma PreemptedKeeps(v: Controller, a: Action, facts: Facts)
    requires Unowned(v) && a.id == v.id && FrameFits(Held(a, Preempted), v.origin, v.activity)
    ensures Inv(ResumePreempted(v, a, facts))
  {
    hide Inv, Unowned, Holders, FramesFit;
    UnownedOrigin(v);
    UnownedHold(v, v.activity, Held(a, Without));
    UnownedCall(v, a);
  }

  lemma LiveHeldKeeps(v: Controller, a: Action, next: Next, facts: Facts)
    requires Unowned(v) && a.id == v.id && FrameFits(Held(a, next), v.origin, v.activity)
    ensures Inv(ResumeHeld(v, a, next, facts))
  {
    hide Inv, Unowned, Holders, FramesFit;
    UnownedOrigin(v);
    match next {
      case Start => DispatchKeeps(v, a);
      case Moved =>
        if a.op == OpDelete {
          UnownedHold(v, v.activity, Held(a, Start));
        } else {
          DispatchKeeps(v, a);
        }
      case Asked =>
        UnownedHold(v, v.activity, Held(a, Without));
        UnownedHold(v, v.activity, Held(a, Preempted));
      case Preempted => PreemptedKeeps(v, a, facts);
      case Without => UnownedFinish(v);
      case Mutation => UnownedComplete(v, a);
      case Confirm => UnownedHold(v, v.activity, Held(a, Probed));
      case Probed => ProbedKeeps(v, a, facts);
      case Unavailable =>
        UnownedFinish(v);
        UnownedComplete(v, a);
    }
  }

  /** An action whose activity has ended is dropped, whatever was left to do. */
  lemma StaleHeldKeeps(v: Controller, a: Action, next: Next, facts: Facts)
    requires Inv(v) && !Matches(v, a.id) && a.id <= v.id
    ensures Inv(ResumeHeld(v, a, next, facts))
  {
    hide Inv, Holders, FramesFit, Owned;
    if next == Asked && facts.handled {
      StalePush(v, Held(a, Without));
    }
  }

  lemma StalePush(v: Controller, f: Frame)
    requires Inv(v) && f.Held? && !Matches(v, f.action.id) && f.action.id <= v.id
    ensures Inv(Push(v, f))
  {
    HoldersPush(v.frames, f, v.id);
    if IsRunning(v) && v.activity != Idle {
      PushFits(v, f);
    }
  }

  lemma HeldKeeps(whole: Controller, a: Action, next: Next, facts: Facts)
    requires Inv(whole) && whole.frames != [] && whole.frames[|whole.frames| - 1] == Held(a, next)
    ensures Inv(ResumeHeld(Popped(whole), a, next, facts))
  {
    hide Inv, Unowned, Holders, FramesFit, ResumeHeld;
    TopBelow(whole);
    if Matches(whole, a.id) {
      PoppedHolder(whole);
      LiveHeldKeeps(Popped(whole), a, next, facts);
    } else {
      PoppedOther(whole);
      StaleHeldKeeps(Popped(whole), a, next, facts);
    }
  }

  lemma ShowKeeps(v: Controller, id: nat, op: Operation)
    requires Inv(v)
    ensures Inv(Show(v, id, op))
  {
    hide Inv, FramesFit, Holders;
    if ConfirmationMatches(v, op, id) {
      OriginOf(v);
      PushKeeps(v, Showing(id, op));
    }
  }

  lemma TransitionedKeeps(whole: Controller, id: nat, op: Operation)
    requires Inv(whole) && whole.frames != [] && whole.frames[|whole.frames| - 1] == Transitioned(id, op)
    ensures Inv(ResumeTransitioned(Popped(whole), id, op))
  {
    hide Inv, FramesFit, Holders;
    var v := Popped(whole);
    PoppedOther(whole);
    ShowKeeps(v, id, op);
    if v.pending.Some? && v.pending.value.id == id {
      PendingMatches(whole, id, op);
    }
  }

  /** The token is there only while its activity is, so losing the activity has
      already taken the token. */
  lemma PendingMatches(whole: Controller, id: nat, op: Operation)
    requires Inv(whole) && whole.frames != [] && whole.frames[|whole.frames| - 1] == Transitioned(id, op)
    requires whole.pending.Some? && whole.pending.value.id == id
    ensures Matches(whole, id) && whole.activity == ConfirmActivity(op)
  {
    assert FrameFits(whole.frames[|whole.frames| - 1], whole.origin, whole.activity);
  }

  lemma ShowingKeeps(whole: Controller, id: nat, op: Operation, facts: Facts)
    requires Inv(whole) && whole.frames != [] && whole.frames[|whole.frames| - 1] == Showing(id, op)
    ensures Inv(ResumeShowing(Popped(whole), id, op, facts))
  {
    hide Inv, FramesFit, Holders, Unowned;
    var v := Popped(whole);
    PoppedOther(whole);
    if ConfirmationMatches(v, op, id) {
      OriginOf(v);
      TakenIsUnowned(v);
      UnownedHold(v.(pending := None), v.activity, Held(v.pending.value, Unavailable));
    }
  }

  /** The activity whose verification it was. */
  lemma VerifiedKeeps(whole: Controller, id: nat, facts: Facts)
    requires Inv(whole) && whole.frames != [] && whole.frames[|whole.frames| - 1] == Verifying(id) && Matches(whole, id)
    ensures Inv(Resume(whole, facts))
  {
    hide FramesFit, Holders, OpFits;
    var v := Popped(whole);
    PoppedFits(whole);
    assert Verifying(id) in whole.frames;
    assert v.calls == [] && v.pending.None?;
    if !v.verification || !v.authorized || !facts.checking {
      IdleKeeps(Finish(v, id));
    } else {
      AwaitsKeeps(whole, id);
    }
  }

  lemma IdleKeeps(v: Controller)
    requires IdsOk(v) && v.origin != OpReplace && IsRunning(v)
    requires v.activity == Idle && v.calls == [] && v.pending.None? && !v.verification
    ensures Inv(v)
  {
    hide IdsOk;
  }

  /** A verification that goes on does so without the frame that began it. */
  lemma AwaitsKeeps(whole: Controller, id: nat)
    requires Inv(whole) && whole.frames != [] && whole.frames[|whole.frames| - 1] == Verifying(id)
    requires Matches(whole, id) && whole.verification
    ensures Inv(Popped(whole))
  {
    hide FramesFit, Holders, OpFits, ActivityFits;
    var v := Popped(whole);
    PoppedFits(whole);
    assert whole.frames == v.frames + [Verifying(id)];
    HoldersPush(v.frames, Verifying(id), v.id);
    assert !IsConfirm(whole.activity);
  }

  /** Any other. */
  lemma PassedKeeps(whole: Controller, id: nat)
    requires Inv(whole) && whole.frames != [] && whole.frames[|whole.frames| - 1] == Verifying(id)
    requires !Matches(whole, id)
    ensures Inv(Popped(whole))
  {
    hide FramesFit, Holders, OpFits, ActivityFits;
    var v := Popped(whole);
    PoppedFits(whole);
    assert whole.frames == v.frames + [Verifying(id)];
    HoldersPush(v.frames, Verifying(id), v.id);
    if IsRunning(whole) && whole.activity != Idle {
      assert Verifying(v.id) in whole.frames ==> Verifying(v.id) in v.frames;
    }
  }

  lemma VerifyingKeeps(whole: Controller, id: nat, facts: Facts)
    requires Inv(whole) && whole.frames != [] && whole.frames[|whole.frames| - 1] == Verifying(id)
    ensures Inv(Resume(whole, facts))
  {
    if Matches(whole, id) {
      VerifiedKeeps(whole, id, facts);
    } else {
      PassedKeeps(whole, id);
    }
  }

  lemma LostKeeps(whole: Controller)
    requires Inv(whole) && whole.frames != [] && whole.frames[|whole.frames| - 1] == AuthorizationLost
    ensures var v := Popped(whole); Inv(if v.verification then Finish(v, v.id) else v)
  {
    hide FramesFit, Holders;
    PoppedOther(whole);
    if whole.verification {
      FinishKeeps(Popped(whole), whole.id);
    }
  }

  lemma ChooserKeeps(whole: Controller, id: nat, facts: Facts)
    requires Inv(whole) && whole.frames != [] && whole.frames[|whole.frames| - 1] == ChooserShown(id)
    ensures var v := Popped(whole); Inv(if !facts.handled && Matches(v, id) then Push(v, Declining(id)) else v)
  {
    hide Inv, FramesFit, Holders;
    PoppedOther(whole);
    if Matches(Popped(whole), id) {
      PushKeeps(Popped(whole), Declining(id));
    }
  }

  /** Who owns what. At most one mutation call is undelivered, and in a running
      controller it belongs to the current activity; the token is always that of the
      confirmation under way. Between main-loop steps the token is there in both
      confirmations, and a mutating activity has its call in flight or its
      verification under way, and not both. */
  predicate Ownership(v: Controller) {
    && |v.calls| <= 1
    && (IsRunning(v) && v.calls != [] ==> v.calls[0].id == v.id && v.activity == CallActivity(v.calls[0].op))
    && (v.pending.Some? ==> ConfirmationMatches(v, v.pending.value.op, v.id))
    && (v.frames == [] ==>
          && (IsConfirm(v.activity) ==> v.pending.Some?)
          && (IsMutation(v.activity) ==> (v.calls != [] <==> !v.verification))
          && (v.verification ==> IsMutation(v.activity)))
  }

  lemma InvOwns(v: Controller)
    requires Inv(v)
    ensures Ownership(v)
  {
    if IsRunning(v) {
      OriginOf(v);
    }
  }

  /** A notice is about to end an activity that meanwhile has sent its call, or
      waits for a confirmation. */
  predicate Overtaken(v: Controller, step: Step) {
    && step.StepResume? && v.frames != [] && v.frames[|v.frames| - 1].Declining?
    && Matches(v, v.frames[|v.frames| - 1].id) && (v.calls != [] || v.pending.Some?)
  }

  lemma ResumeKeeps(v: Controller, facts: Facts)
    requires Inv(v) && v.frames != [] && !v.frames[|v.frames| - 1].Declining?
    ensures Inv(Resume(v, facts))
  {
    hide Inv, ResumeBegan, ResumeHeld, ResumeTransitioned, ResumeShowing;
    match v.frames[|v.frames| - 1] {
      case Began(id, op) => ResumeBeganKeeps(v, id, op);
      case ChooserShown(id) => ChooserKeeps(v, id, facts);
      case Held(a, next) => HeldKeeps(v, a, next, facts);
      case Transitioned(id, op) => TransitionedKeeps(v, id, op);
      case Showing(id, op) => ShowingKeeps(v, id, op, facts);
      case Verifying(id) => VerifyingKeeps(v, id, facts);
      case AuthorizationLost => LostKeeps(v);
    }
  }

  lemma OvertakenBreaks(v: Controller, step: Step, facts: Facts)
    requires Inv(v) && Overtaken(v, step)
    ensures !Ownership(Execute(v, step, facts))
  {
  }

  lemma KeepsUnlessOvertaken(v: Controller, step: Step, facts: Facts)
    requires Inv(v) && Enabled(v, step)
    ensures Inv(Execute(v, step, facts)) <==> !Overtaken(v, step)
  {
    hide Inv, StartUp, Stop, SetAuthorized, RuntimeChanged, Begin, FileSelected, SelectionCancelled, Loaded, LoadFailed,
         CancelImport, Response, Result;
    match step {
      case StepStart => StopKeeps(v);
      case StepStop => StopKeeps(v);
      case StepSetAuthorized(authorized) => SetAuthorizedKeeps(v, authorized);
      case StepRuntimeChanged => RuntimeChangedKeeps(v, facts);
      case StepBegin(op) => BeginKeeps(v, op, facts);
      case StepFileSelected(id, valid) => SelectKeeps(v, id, valid);
      case StepSelectionCancelled(id) => SelectKeeps(v, id, true);
      case StepLoaded(id, hasConfig) => LoadedKeeps(v, id, hasConfig);
      case StepLoadFailed(id) => SelectKeeps(v, id, true);
      case StepCancelImport => SelectKeeps(v, v.id, true);
      case StepResponse(op, id, confirmed) => ResponseKeeps(v, op, id, confirmed, facts);
      case StepResult(index, outcome) => ResultKeeps(v, index, outcome);
      case StepResume =>
        if v.frames[|v.frames| - 1].Declining? {
          PoppedOther(v);
          FinishBreaks(Popped(v), v.frames[|v.frames| - 1].id);
        } else {
          ResumeKeeps(v, facts);
        }
    }
  }

  /** Every step of every schedule keeps the invariant, except one: and that one,
      when it is taken, always breaks ownership. */
  lemma ExecuteKeepsExactly(v: Controller, step: Step, facts: Facts)
    requires Inv(v) && Enabled(v, step)
    ensures Inv(Execute(v, step, facts)) <==> !Overtaken(v, step)
    ensures Ownership(Execute(v, step, facts)) <==> !Overtaken(v, step)
  {
    KeepsUnlessOvertaken(v, step, facts);
    if Overtaken(v, step) {
      OvertakenBreaks(v, step, facts);
    } else {
      InvOwns(Execute(v, step, facts));
    }
  }

  // ------------------------------------------------------------------------
  // Runs
  // ------------------------------------------------------------------------

  /** States, steps and facts of a run from creation. */
  predicate Run(trace: seq<Controller>, steps: seq<Step>, facts: seq<Facts>) {
    && |trace| == |steps| + 1 && |facts| == |steps| && trace[0] == NEW_CONTROLLER
    && forall k | 0 <= k < |steps| ::
      Enabled(trace[k], steps[k]) && trace[k + 1] == Execute(trace[k], steps[k], facts[k])
  }

  /** No notice ends an activity that has moved on while it was shown. */
  predicate NeverOvertaken(trace: seq<Controller>, steps: seq<Step>)
    requires |trace| == |steps| + 1
  {
    forall k | 0 <= k < |steps| :: !Overtaken(trace[k], steps[k])
  }

  lemma NewInv()
    ensures Inv(NEW_CONTROLLER)
  {
  }

  lemma {:induction false} RunKeeps(trace: seq<Controller>, steps: seq<Step>, facts: seq<Facts>, k: nat)
    requires Run(trace, steps, facts) && k <= |steps|
    requires forall j | 0 <= j < k :: !Overtaken(trace[j], steps[j])
    ensures Inv(trace[k])
  {
    hide Inv, Execute, Enabled, Overtaken;
    if k == 0 {
      NewInv();
    } else {
      RunKeeps(trace, steps, facts, k - 1);
      ExecuteKeepsExactly(trace[k - 1], steps[k - 1], facts[k - 1]);
    }
  }

  lemma {:induction false} FirstOvertaken(trace: seq<Controller>, steps: seq<Step>, k: nat) returns (j: nat)
    requires |trace| == |steps| + 1 && k < |steps| && Overtaken(trace[k], steps[k])
    ensures j <= k && Overtaken(trace[j], steps[j]) && forall i | 0 <= i < j :: !Overtaken(trace[i], steps[i])
  {
    if i: nat :| i < k && Overtaken(trace[i], steps[i]) {
      j := FirstOvertaken(trace, steps, i);
    } else {
      j := k;
    }
  }

  /** Activity ownership, exactly: it holds in every state of a run if and only if
      no notice of that run is overtaken. */
  lemma ActivityOwnership(trace: seq<Controller>, steps: seq<Step>, facts: seq<Facts>)
    requires Run(trace, steps, facts)
    ensures (forall k | 0 <= k <= |steps| :: Ownership(trace[k])) <==> NeverOvertaken(trace, steps)
  {
    hide Inv, Ownership, Execute, Enabled, Overtaken;
    if NeverOvertaken(trace, steps) {
      forall k | 0 <= k <= |steps| ensures Ownership(trace[k]) {
        RunKeeps(trace, steps, facts, k);
        InvOwns(trace[k]);
      }
    } else {
      var k: nat :| k < |steps| && Overtaken(trace[k], steps[k]);
      var j := FirstOvertaken(trace, steps, k);
      RunKeeps(trace, steps, facts, j);
      ExecuteKeepsExactly(trace[j], steps[j], facts[j]);
      assert !Ownership(trace[j + 1]);
    }
  }

  // ------------------------------------------------------------------------
  // Ids of ended activities
  // ------------------------------------------------------------------------

  /** An activity only ever runs in a running controller. */
  predicate IdleUnlessRunning(v: Controller) {
    IsRunning(v) || v.activity == Idle
  }

  lemma EndedStep(v: Controller, step: Step, facts: Facts, id: nat)
    requires Enabled(v, step) && !Matches(v, id) && id <= v.id && IdleUnlessRunning(v)
    ensures var after := Execute(v, step, facts); !Matches(after, id) && id <= after.id && IdleUnlessRunning(after)
  {
    hide Push, Resume;
    PushesKeepId(v);
    if step.StepResume? {
      EndedResume(v, facts, id);
    }
  }

  lemma EndedHeld(v: Controller, a: Action, next: Next, facts: Facts, id: nat)
    requires !Matches(v, id) && id <= v.id && IdleUnlessRunning(v)
    ensures var after := ResumeHeld(v, a, next, facts);
            !Matches(after, id) && id <= after.id && IdleUnlessRunning(after)
  {
    hide Push;
    PushesKeepId(v);
  }

  lemma EndedResume(v: Controller, facts: Facts, id: nat)
    requires v.frames != [] && !Matches(v, id) && id <= v.id && IdleUnlessRunning(v)
    ensures var after := Resume(v, facts); !Matches(after, id) && id <= after.id && IdleUnlessRunning(after)
  {
    hide Push, ResumeHeld;
    PushesKeepId(v);
    var top := v.frames[|v.frames| - 1];
    if top.Held? {
      EndedHeld(Popped(v), top.action, top.next, facts, id);
    }
  }

  lemma PushesKeepId(v: Controller)
    ensures forall w: Controller, f: Frame ::
              Push(w, f).id == w.id && Push(w, f).activity == w.activity && IsRunning(Push(w, f)) == IsRunning(w)
  {
  }

  lemma {:induction false} RunIdle(trace: seq<Controller>, steps: seq<Step>, facts: seq<Facts>, k: nat)
    requires Run(trace, steps, facts) && k <= |steps|
    ensures IdleUnlessRunning(trace[k])
  {
    hide Execute, Enabled, Matches;
    if k > 0 {
      RunIdle(trace, steps, facts, k - 1);
      StepIdle(trace[k - 1], steps[k - 1], facts[k - 1]);
    }
  }

  lemma StepIdle(v: Controller, step: Step, facts: Facts)
    requires Enabled(v, step) && IdleUnlessRunning(v)
    ensures IdleUnlessRunning(Execute(v, step, facts))
  {
    hide Push, Resume;
    PushesKeepId(v);
    if step.StepResume? {
      ResumeIdle(v, facts);
    }
  }

  lemma HeldIdle(v: Controller, a: Action, next: Next, facts: Facts)
    requires IdleUnlessRunning(v)
    ensures IdleUnlessRunning(ResumeHeld(v, a, next, facts))
  {
    hide Push;
    PushesKeepId(v);
  }

  lemma ResumeIdle(v: Controller, facts: Facts)
    requires v.frames != [] && IdleUnlessRunning(v)
    ensures IdleUnlessRunning(Resume(v, facts))
  {
    hide Push, ResumeHeld;
    PushesKeepId(v);
    var top := v.frames[|v.frames| - 1];
    if top.Held? {
      HeldIdle(Popped(v), top.action, top.next, facts);
    }
  }

  /** An activity that has ended never matches again, whatever happens afterwards:
      loss of authorization, its return, new activities, late answers. */
  lemma {:induction false} EndedForever(trace: seq<Controller>, steps: seq<Step>, facts: seq<Facts>, j: nat, k: nat,
                                        id: nat)
    requires Run(trace, steps, facts) && j <= k <= |steps| && !Matches(trace[j], id) && id <= trace[j].id
    ensures !Matches(trace[k], id) && id <= trace[k].id
    decreases k
  {
    hide Execute, Enabled, Matches, IdleUnlessRunning;
    if j < k {
      EndedForever(trace, steps, facts, j, k - 1, id);
      RunIdle(trace, steps, facts, k - 1);
      EndedStep(trace[k - 1], steps[k - 1], facts[k - 1], id);
    }
  }

  /** Whatever still carries the id of an ended activity changes nothing: dialog
      answers, file choices and loads; a late reply is only taken off the list. */
  lemma EndedChangesNothing(v: Controller, id: nat, op: Operation, flag: bool, facts: Facts)
    requires !Matches(v, id)
    ensures FileSelected(v, id, flag) == v && SelectionCancelled(v, id) == v && Loaded(v, id, flag) == v
    ensures LoadFailed(v, id) == v
    ensures Response(v, op, id, flag, facts) == v && Finish(v, id) == v
    ensures forall index: nat, outcome ::
              index < |v.calls| && v.calls[index].id == id ==>
                Result(v, index, outcome) == v.(calls := v.calls[..index] + v.calls[index + 1..])
  {
  }

  // ------------------------------------------------------------------------
  // Why the exception matters
  // ------------------------------------------------------------------------

  ghost predicate Reachable(v: Controller) {
    exists trace: seq<Controller>, steps: seq<Step>, facts: seq<Facts> ::
      Run(trace, steps, facts) && trace[|steps|] == v
  }

  lemma NewIsReachable()
    ensures Reachable(NEW_CONTROLLER)
  {
    assert Run([NEW_CONTROLLER], [], []);
  }

  lemma ReachStep(v: Controller, step: Step, facts: Facts)
    requires Reachable(v) && Enabled(v, step)
    ensures Reachable(Execute(v, step, facts))
  {
    hide Enabled, Execute;
    var trace, steps, given :| Run(trace, steps, given) && trace[|steps|] == v;
    var more, steps', given' := trace + [Execute(v, step, facts)], steps + [step], given + [facts];
    forall k | 0 <= k < |steps'|
      ensures Enabled(more[k], steps'[k]) && more[k + 1] == Execute(more[k], steps'[k], given'[k])
    {
      if k < |steps| {
        assert more[k] == trace[k] && steps'[k] == steps[k] && given'[k] == given[k] && more[k + 1] == trace[k + 1];
      }
    }
    assert Run(more, steps', given');
  }

  const WILLING := Facts(false, true, true, false)

  /** One step from `v` to `w`. */
  lemma Arrive(v: Controller, step: Step, facts: Facts, w: Controller)
    requires Reachable(v) && Enabled(v, step) && Execute(v, step, facts) == w
    ensures Reachable(w)
  {
    hide Reachable, Execute;
    ReachStep(v, step, facts);
  }

  lemma PopTop(v: Controller, below: seq<Frame>, top: Frame)
    requires v.frames == below + [top]
    ensures v.frames != [] && v.frames[|v.frames| - 1] == top && v.frames[..|v.frames| - 1] == below
  {
  }

  lemma ArriveHeld(v: Controller, below: seq<Frame>, a: Action, next: Next, w: Controller)
    requires Reachable(v) && v.frames == below + [Held(a, next)]
    requires w == ResumeHeld(v.(frames := below), a, next, WILLING)
    ensures Reachable(w)
  {
    hide Reachable, ResumeHeld;
    PopTop(v, below, Held(a, next));
    Arrive(v, StepResume, WILLING, w);
  }

  /** Somewhere in an import that the user has chosen. */
  function ImportAt(activity: Activity, calls: seq<Action>, frames: seq<Frame>): Controller {
    NEW_CONTROLLER.(started := true, authorized := true, id := 1, activity := activity, calls := calls,
                    frames := frames)
  }

  lemma ImportBegins()
    ensures Reachable(ImportAt(ImportSelect, [], [Began(1, OpImport)]))
  {
    hide Reachable;
    NewIsReachable();
    var v := NEW_CONTROLLER.(started := true);
    Arrive(NEW_CONTROLLER, StepStart, WILLING, v);
    var w := v.(authorized := true);
    Arrive(v, StepSetAuthorized(true), WILLING, w);
    assert [] + [Began(1, OpImport)] == [Began(1, OpImport)];
    Arrive(w, StepBegin(OpImport), WILLING, ImportAt(ImportSelect, [], [Began(1, OpImport)]));
  }

  lemma ChooserIsShown()
    ensures Reachable(ImportAt(ImportSelect, [], []))
  {
    hide Reachable;
    ImportBegins();
    var began, shown := ImportAt(ImportSelect, [], [Began(1, OpImport)]), ImportAt(ImportSelect, [], [ChooserShown(1)]);
    assert began.frames == [] + [Began(1, OpImport)] && shown.frames == [] + [ChooserShown(1)];
    PopTop(began, [], Began(1, OpImport));
    Arrive(began, StepResume, WILLING, shown);
    PopTop(shown, [], ChooserShown(1));
    Arrive(shown, StepResume, WILLING.(handled := true), ImportAt(ImportSelect, [], []));
  }

  /** The file loads while the notice that it failed is still being shown. */
  lemma LoadedDuringNotice()
    ensures Reachable(ImportAt(Import, [], [Declining(1), Held(Action(1, OpImport, true), Moved)]))
  {
    hide Reachable;
    ChooserIsShown();
    var loading, failing := ImportAt(ImportLoad, [], []), ImportAt(ImportLoad, [], [Declining(1)]);
    Arrive(ImportAt(ImportSelect, [], []), StepFileSelected(1, true), WILLING, loading);
    assert failing.frames == [] + [Declining(1)];
    Arrive(loading, StepLoadFailed(1), WILLING, failing);
    var a := Action(1, OpImport, true);
    assert [Declining(1)] + [Held(a, Moved)] == [Declining(1), Held(a, Moved)];
    Arrive(failing, StepLoaded(1, true), WILLING, ImportAt(Import, [], [Declining(1), Held(a, Moved)]));
  }

  /** An action's way from its first frame to its call. */
  lemma DispatchedFrom(v: Controller, below: seq<Frame>, a: Action, next: Next, w: Controller)
    requires Reachable(v) && v.frames == below + [Held(a, next)]
    requires next == Start || (next == Moved && a.op == OpImport)
    requires Matches(v, a.id) && v.authorized && v.activity == CallActivity(a.op) && (a.op == OpImport ==> a.hasConfig)
    requires a.op != OpReplace
    requires w == v.(frames := below, calls := v.calls + [a])
    ensures Reachable(w)
  {
    hide Reachable;
    var asked, preempted := v.(frames := below + [Held(a, Asked)]), v.(frames := below + [Held(a, Preempted)]);
    ArriveHeld(v, below, a, next, asked);
    ArriveHeld(asked, below, a, Asked, preempted);
    ArriveHeld(preempted, below, a, Preempted, w);
  }

  /** So the import is under way when the notice returns, which ends the activity
      all the same. */
  lemma OvertakenImport()
    ensures Reachable(ImportAt(Idle, [Action(1, OpImport, true)], []))
    ensures Overtaken(ImportAt(Import, [Action(1, OpImport, true)], [Declining(1)]), StepResume)
  {
    hide Reachable;
    LoadedDuringNotice();
    var a := Action(1, OpImport, true);
    var loaded, sent := ImportAt(Import, [], [Declining(1), Held(a, Moved)]), ImportAt(Import, [a], [Declining(1)]);
    assert loaded.frames == [Declining(1)] + [Held(a, Moved)] && sent.calls == [] + [a];
    assert sent.frames == [] + [Declining(1)];
    DispatchedFrom(loaded, [Declining(1)], a, Moved, sent);
    PopTop(sent, [], Declining(1));
    Arrive(sent, StepResume, WILLING, ImportAt(Idle, [a], []));
  }

  /** A tunnel being brought up, after the import above. */
  function UpAt(calls: seq<Action>, frames: seq<Frame>): Controller {
    NEW_CONTROLLER.(started := true, authorized := true, id := 2, activity := Up, origin := OpUp, calls := calls,
                    frames := frames)
  }

  lemma UpIsAnnounced(calls: seq<Action>)
    ensures Begin(ImportAt(Idle, calls, []), OpUp, WILLING) == UpAt(calls, [Began(2, OpUp)])
    ensures Resume(UpAt(calls, [Began(2, OpUp)]), WILLING) == UpAt(calls, [Held(Action(2, OpUp, false), Start)])
  {
    var began := UpAt(calls, [Began(2, OpUp)]);
    assert began.frames == [] + [Began(2, OpUp)];
    PopTop(began, [], Began(2, OpUp));
    assert [Held(Action(2, OpUp, false), Start)] == [] + [Held(Action(2, OpUp, false), Start)];
  }

  lemma UpBegins()
    ensures Reachable(UpAt([Action(1, OpImport, true)], [Held(Action(2, OpUp, false), Start)]))
  {
    hide Reachable, Begin, Resume, UpAt;
    OvertakenImport();
    var calls := [Action(1, OpImport, true)];
    UpIsAnnounced(calls);
    Arrive(ImportAt(Idle, calls, []), StepBegin(OpUp), WILLING, UpAt(calls, [Began(2, OpUp)]));
    UpHasFrame(calls);
    Arrive(UpAt(calls, [Began(2, OpUp)]), StepResume, WILLING, UpAt(calls, [Held(Action(2, OpUp, false), Start)]));
  }

  lemma UpHasFrame(calls: seq<Action>)
    ensures UpAt(calls, [Began(2, OpUp)]).frames == [Began(2, OpUp)]
  {
  }

  /** With such a callback the claim fails: two mutation calls are undelivered at
      once, between main-loop steps. */
  lemma TwoCallsAreReachable()
    ensures exists v :: Reachable(v) && v.frames == [] && |v.calls| == 2
  {
    hide Reachable, Execute, Dispatch;
    UpBegins();
    var a, b := Action(1, OpImport, true), Action(2, OpUp, false);
    var v, w := UpAt([a], [Held(b, Start)]), UpAt([a] + [b], []);
    assert v.frames == [] + [Held(b, Start)];
    DispatchedFrom(v, [], b, Start, w);
    assert w.frames == [] && |w.calls| == 2;
  }

  // ------------------------------------------------------------------------
  // The object
  // ------------------------------------------------------------------------

  class ControllerObject {
    var started: bool
    var stopping: bool
    var authorized: bool
    var activity: Activity
    var activityId: nat
    ghost var origin: Operation
    var pendingConfirmation: Option<Action>
    var verificationPending: bool
    var calls: seq<Action>
    var frames: seq<Frame>

    ghost function View(): Controller
      reads this
    {
      Controller(started, stopping, authorized, activity, activityId, origin, pendingConfirmation, verificationPending,
                 calls, frames)
    }

    constructor ()
      ensures View() == NEW_CONTROLLER
    {
      started, stopping, authorized, activity, activityId := false, false, false, Idle, 0;
      origin := OpImport;
      pendingConfirmation, verificationPending, calls, frames := None, false, [], [];
    }

    predicate Running()
      reads this
      ensures Running() == IsRunning(View())
    {
      started && !stopping
    }

    predicate ActivityMatches(id: nat)
      reads this
      ensures ActivityMatches(id) == Matches(View(), id)
    {
      Running() && activity != Idle && activityId == id
    }

    predicate TokenMatches(op: Operation, id: nat)
      reads this
      ensures TokenMatches(op, id) == ConfirmationMatches(View(), op, id)
    {
      ActivityMatches(id) && pendingConfirmation.Some? && pendingConfirmation.value.id == id
      && pendingConfirmation.value.op == op
      && activity == ConfirmActivity(op) && (op == OpImport || op == OpDelete)
    }

    predicate IsAllowed(continuing: bool, facts: Facts)
      reads this
      ensures IsAllowed(continuing, facts) == Allowed(View(), continuing, facts)
    {
      facts.allowed && Running() && authorized && (continuing || activity == Idle)
    }

    method PushFrame(f: Frame)
      modifies this`frames
      ensures View() == Push(old(View()), f)
    {
      frames := frames + [f];
    }

    method FinishActivity(id: nat)
      modifies this`activity, this`verificationPending
      ensures View() == Finish(old(View()), id)
    {
      if ActivityMatches(id) {
        activity, verificationPending := Idle, false;
      }
    }

    method CompleteMutationAction(a: Action)
      modifies this`verificationPending, this`frames
      ensures View() == CompleteMutation(old(View()), a)
    {
      if ActivityMatches(a.id) {
        verificationPending := IsMutation(activity);
        PushFrame(Verifying(a.id));
      }
    }

    method RequestConfirmationFor(a: Action)
      modifies this`frames
      ensures View() == RequestConfirmation(old(View()), a)
    {
      if ActivityMatches(a.id) {
        PushFrame(Held(a, Probed));
      }
    }

    method DispatchAction(a: Action)
      modifies this`frames
      ensures View() == Dispatch(old(View()), a)
    {
      if !ActivityMatches(a.id) {
        return;
      }
      if (a.op == OpImport || a.op == OpReplace) && !a.hasConfig {
        PushFrame(Held(a, Without));
      } else {
        PushFrame(Held(a, Asked));
      }
    }

    method SwitchOn()
      modifies this`started
      ensures View() == StartUp(old(View()))
    {
      if !started && !stopping {
        started := true;
      }
    }

    method SwitchOff()
      modifies this
      ensures View() == Stop(old(View()))
    {
      if stopping {
        return;
      }
      stopping, started := true, false;
      activityId := activityId + 1;
      activity, verificationPending, authorized, pendingConfirmation := Idle, false, false, None;
    }

    method AuthorizationChanged(granted: bool)
      modifies this
      ensures View() == SetAuthorized(old(View()), granted)
    {
      if !Running() {
        return;
      }
      authorized := granted;
      if granted {
        return;
      }
      if activity == ImportSelect || activity == ImportLoad || IsConfirm(activity) {
        activity, pendingConfirmation := Idle, None;
      }
      PushFrame(AuthorizationLost);
    }

    method OnRuntimeChanged(facts: Facts)
      modifies this`activity, this`verificationPending
      ensures View() == RuntimeChanged(old(View()), facts)
    {
      if Running() && verificationPending && (!authorized || !facts.checking) {
        FinishActivity(activityId);
      }
    }

    method BeginActivity(op: Operation, facts: Facts)
      modifies this
      ensures View() == Begin(old(View()), op, facts)
    {
      if !Running() || activity != Idle || !IsAllowed(false, facts) {
        return;
      }
      activityId := activityId + 1;
      activity := FirstActivity(op);
      origin := op;
      PushFrame(Began(activityId, op));
    }

    method ImportFileSelected(id: nat, valid: bool)
      modifies this`activity, this`frames
      ensures View() == FileSelected(old(View()), id, valid)
    {
      if !ActivityMatches(id) || activity != ImportSelect {
        return;
      }
      if valid {
        activity := ImportLoad;
      } else {
        PushFrame(Declining(id));
      }
    }

    method ImportSelectionCancelled(id: nat)
      modifies this`activity, this`verificationPending
      ensures View() == SelectionCancelled(old(View()), id)
    {
      if ActivityMatches(id) && activity == ImportSelect {
        FinishActivity(id);
      }
    }

    method ImportLoaded(id: nat, hasConfig: bool)
      modifies this`activity, this`frames
      ensures View() == Loaded(old(View()), id, hasConfig)
    {
      if !ActivityMatches(id) || activity != ImportLoad {
        return;
      }
      activity := Import;
      PushFrame(Held(Action(id, OpImport, hasConfig), Moved));
    }

    method ImportFailed(id: nat)
      modifies this`frames
      ensures View() == LoadFailed(old(View()), id)
    {
      if ActivityMatches(id) && activity == ImportLoad {
        PushFrame(Declining(id));
      }
    }

    method CancelSelection()
      modifies this`frames
      ensures View() == CancelImport(old(View()))
    {
      if Running() && (activity == ImportSelect || activity == ImportLoad) {
        PushFrame(Declining(activityId));
      }
    }

    method ConfirmationResponse(op: Operation, id: nat, confirmed: bool, facts: Facts)
      modifies this
      ensures View() == Response(old(View()), op, id, confirmed, facts)
    {
      if !TokenMatches(op, id) {
        return;
      }
      var a := pendingConfirmation.value;
      pendingConfirmation := None;
      if op == OpImport {
        if !confirmed {
          CompleteMutationAction(a);
        } else if !IsAllowed(true, facts) {
          PushFrame(Held(a, Mutation));
        } else {
          activity := Replace;
          PushFrame(Held(a.(op := OpReplace), Moved));
        }
      } else if !confirmed {
        FinishActivity(id);
      } else if !IsAllowed(true, facts) {
        PushFrame(Held(a, Without));
      } else {
        activity := Delete;
        PushFrame(Held(a, Moved));
      }
    }

    method ServiceResult(index: nat, outcome: Outcome)
      requires index < |calls|
      modifies this
      ensures View() == Result(old(View()), index, outcome)
    {
      var a := calls[index];
      calls := calls[..index] + calls[index + 1..];
      if !ActivityMatches(a.id) {
        return;
      }
      match outcome {
        case WasCancelled => FinishActivity(a.id);
        case WasRefused => PushFrame(Held(a, Without));
        case Succeeded => PushFrame(Held(a, if a.op == OpDelete then Without else Mutation));
        case NeedsReplacement => PushFrame(Held(a, if a.op == OpImport then Confirm else Mutation));
        case OtherOutcome => PushFrame(Held(a, Mutation));
      }
    }

    method ShowConfirmation(id: nat, op: Operation)
      modifies this`frames
      ensures View() == Show(old(View()), id, op)
    {
      if TokenMatches(op, id) && authorized {
        PushFrame(Showing(id, op));
      }
    }

    method ContinueBegan(id: nat, op: Operation)
      modifies this`frames
      ensures View() == ResumeBegan(old(View()), id, op)
    {
      if !ActivityMatches(id) || activity != FirstActivity(op) {
        return;
      }
      match op {
        case OpImport => PushFrame(ChooserShown(id));
        case OpDelete => RequestConfirmationFor(Action(id, OpDelete, false));
        case OpUp => PushFrame(Held(Action(id, op, false), Start));
        case OpDown => PushFrame(Held(Action(id, op, false), Start));
        case OpReplace => PushFrame(Held(Action(id, op, false), Start));
      }
    }

    method ContinueProbed(a: Action, facts: Facts)
      modifies this`pendingConfirmation, this`activity, this`frames
      ensures View() == ResumeProbed(old(View()), a, facts)
    {
      if !ActivityMatches(a.id) {
        return;
      }
      if !authorized {
        PushFrame(Held(a, Without));
        return;
      }
      if !facts.handled {
        PushFrame(Held(a, Unavailable));
        return;
      }
      pendingConfirmation := Some(a);
      if activity != ConfirmActivity(a.op) {
        activity := ConfirmActivity(a.op);
        PushFrame(Transitioned(a.id, a.op));
      } else {
        ShowConfirmation(a.id, a.op);
      }
    }

    method ContinuePreempted(a: Action, facts: Facts)
      modifies this`calls, this`frames
      ensures View() == ResumePreempted(old(View()), a, facts)
    {
      if !ActivityMatches(a.id) {
        return;
      }
      if !authorized || (a.op != OpDown && !IsAllowed(true, facts)) || !facts.dependencies {
        PushFrame(Held(a, Without));
        return;
      }
      calls := calls + [a];
    }

    method ContinueHeld(a: Action, next: Next, facts: Facts)
      modifies this
      ensures View() == ResumeHeld(old(View()), a, next, facts)
    {
      hide ResumeProbed, ResumePreempted, Dispatch;
      match next {
        case Start => DispatchAction(a);
        case Moved =>
          if ActivityMatches(a.id) && activity == CallActivity(a.op) {
            if a.op == OpDelete {
              PushFrame(Held(a, Start));
            } else {
              DispatchAction(a);
            }
          }
        case Asked =>
          if facts.handled {
            PushFrame(Held(a, Without));
          } else if ActivityMatches(a.id) {
            PushFrame(Held(a, Preempted));
          }
        case Preempted => ContinuePreempted(a, facts);
        case Without => FinishActivity(a.id);
        case Mutation => CompleteMutationAction(a);
        case Confirm => RequestConfirmationFor(a);
        case Probed => ContinueProbed(a, facts);
        case Unavailable =>
          if a.op == OpDelete {
            FinishActivity(a.id);
          } else {
            CompleteMutationAction(a);
          }
      }
    }

    method ContinueTransitioned(id: nat, op: Operation)
      modifies this`pendingConfirmation, this`frames
      ensures View() == ResumeTransitioned(old(View()), id, op)
    {
      if ActivityMatches(id) && activity == ConfirmActivity(op) {
        ShowConfirmation(id, op);
      } else if pendingConfirmation.Some? && pendingConfirmation.value.id == id {
        pendingConfirmation := None;
      }
    }

    method ContinueShowing(id: nat, op: Operation, facts: Facts)
      modifies this`pendingConfirmation, this`frames
      ensures View() == ResumeShowing(old(View()), id, op, facts)
    {
      if !TokenMatches(op, id) || facts.handled {
        return;
      }
      var a := pendingConfirmation.value;
      pendingConfirmation := None;
      PushFrame(Held(a, Unavailable));
    }

    /** The callback made last returns. */
    method Continue(facts: Facts)
      requires frames != []
      modifies this
      ensures View() == Resume(old(View()), facts)
    {
      hide ResumeBegan, ResumeHeld, ResumeTransitioned, ResumeShowing;
      var top := frames[|frames| - 1];
      frames := frames[..|frames| - 1];
      match top {
        case Began(id, op) => ContinueBegan(id, op);
        case ChooserShown(id) =>
          if !facts.handled && ActivityMatches(id) {
            PushFrame(Declining(id));
          }
        case Declining(id) => FinishActivity(id);
        case Held(a, next) => ContinueHeld(a, next, facts);
        case Transitioned(id, op) => ContinueTransitioned(id, op);
        case Showing(id, op) => ContinueShowing(id, op, facts);
        case Verifying(id) =>
          if !verificationPending || !authorized || !facts.checking {
            FinishActivity(id);
          }
        case AuthorizationLost =>
          if verificationPending {
            FinishActivity(activityId);
          }
      }
    }
  }
}
