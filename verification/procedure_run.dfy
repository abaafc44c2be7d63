/**
  The run coordinator. TryRun gates a procedure through equipment
  availability, then through the patient's own rules, then schedules the
  timed completion and hands back a cancellable run handle.

  Collaborators are abstract. The scheduling and equipment context is a
  Context value describing how it answers and behaves; the patient's answer
  to TryBeginProcedure is a parameter. Every call the coordinator or the
  handle makes into a collaborator is recorded, in order, as an Event.
*/
module ProcedureRun {
  import opened Wrappers
  import opened Definitions

  /** One call into a collaborator. */
  datatype Event =
    | QueryEquipment(equipment: EquipmentId)   // context.IsEquipmentAvailable
    | BeginProcedure(procedure: ProcId)        // patient.TryBeginProcedure
    | Began                                    // the caller's onBegan
    | Schedule(durationSeconds: real)          // context.Schedule
    | CompleteProcedure(procedure: ProcId)     // patient.CompleteProcedure
    | Completed                                // the caller's onCompleted
    | DisposeToken                             // the scheduled token's Dispose
    | CancelActiveProcedure                    // patient.CancelActiveProcedure

  /**
    How the scheduling and equipment context answers.
    `firesDuringSchedule`: Schedule runs the completion callback before returning.
    `firesOnTokenDispose`: disposing the scheduled token runs the completion callback re-entrantly.
    `issuesToken`: Schedule returns a token (it may return none).
  */
  datatype Context = Context(
    available: set<EquipmentId>,
    firesDuringSchedule: bool,
    firesOnTokenDispose: bool,
    issuesToken: bool)

  /**
    The run handle's state. `notifyCompleted` records whether the caller gave
    an onCompleted callback; `holdsToken` whether a scheduled token is retained.
  */
  datatype RunHandle = RunHandle(
    procedure: ProcId,
    notifyCompleted: bool,
    holdsToken: bool,
    disposed: bool,
    finished: bool)

  /** A handle and the calls made while producing it. */
  datatype Step = Step(handle: RunHandle, trace: seq<Event>)

  /** What TryRun hands back (no handle is the game's null) and the calls it made. */
  datatype RunResult = RunResult(handle: Option<RunHandle>, trace: seq<Event>)

  /** Neither finished nor disposed. */
  predicate Live(h: RunHandle)
  {
    !h.disposed && !h.finished
  }

  /** How many times `e` occurs in the trace. */
  function Count(t: seq<Event>, e: Event): nat
  {
    multiset(t)[e]
  }

  /** Calls that reach the patient's state machine once the run of `p` has begun. */
  function DomainCalls(t: seq<Event>, p: ProcId): nat
  {
    Count(t, CompleteProcedure(p)) + Count(t, CancelActiveProcedure)
  }

  // ---------------------------------------------------------------------------
  // The run handle
  // ---------------------------------------------------------------------------

  /**
    The scheduled completion firing. The first firing on a live handle drops
    the token, marks the run finished, completes the procedure on the patient
    and then notifies the caller; any other firing does nothing.
  */
  function OnCompleted(h: RunHandle): (r: Step)
    ensures !Live(h) ==> r == Step(h, [])
    ensures Live(h) ==>
      && r.handle == h.(holdsToken := false, finished := true)
      && r.trace == [CompleteProcedure(h.procedure)] + (if h.notifyCompleted then [Completed] else [])
  {
    if h.disposed || h.finished then Step(h, [])
    else
      var done := h.(holdsToken := false, finished := true);
      Step(done, [CompleteProcedure(h.procedure)] + (if h.notifyCompleted then [Completed] else []))
  }

  /**
    Disposing the token the context handed out. A context may run the
    completion callback from inside this call; the callback then runs on the
    handle as it stands at that moment.
  */
  function DisposeScheduledToken(h: RunHandle, ctx: Context): (r: Step)
    ensures h.disposed || h.finished ==> r == Step(h, [DisposeToken])
  {
    if ctx.firesOnTokenDispose then
      var reentry := OnCompleted(h);
      Step(reentry.handle, [DisposeToken] + reentry.trace)
    else Step(h, [DisposeToken])
  }

  /**
    Binds the token Schedule returned. If the run already finished or was
    disposed, the token is disposed at once and not retained.
  */
  function BindScheduledHandle(h: RunHandle, ctx: Context, token: bool): (r: Step)
    ensures !Live(h) ==> r == Step(h, if token then [DisposeToken] else [])
    ensures Live(h) ==> r == Step(h.(holdsToken := token), [])
  {
    if h.disposed || h.finished then
      if token then DisposeScheduledToken(h, ctx) else Step(h, [])
    else Step(h.(holdsToken := token), [])
  }

  /**
    Disposing the handle. The first call marks it disposed before it disposes
    the token, so a completion re-entering from the token's disposal is
    ignored; if the run had not finished, the patient's active procedure is
    then cancelled. Later calls do nothing.
  */
  function Dispose(h: RunHandle, ctx: Context): (r: Step)
    ensures h.disposed ==> r == Step(h, [])
    ensures !h.disposed ==>
      && r.handle == h.(disposed := true, holdsToken := false)
      && r.trace == (if h.holdsToken then [DisposeToken] else []) + (if h.finished then [] else [CancelActiveProcedure])
      && Count(r.trace, CancelActiveProcedure) == (if h.finished then 0 else 1)
      && Count(r.trace, DisposeToken) == (if h.holdsToken then 1 else 0)
      && Count(r.trace, CompleteProcedure(h.procedure)) == 0
      && DomainCalls(r.trace, h.procedure) == (if h.finished then 0 else 1)
      && (!h.finished ==> r.trace[|r.trace| - 1] == CancelActiveProcedure)
  {
    if h.disposed then Step(h, [])
    else
      var marked := h.(disposed := true);
      var released := if marked.holdsToken then DisposeScheduledToken(marked, ctx) else Step(marked, []);
      var cleared := released.handle.(holdsToken := false);
      if cleared.finished then Step(cleared, released.trace)
      else Step(cleared, released.trace + [CancelActiveProcedure])
  }

  // ---------------------------------------------------------------------------
  // The coordinator
  // ---------------------------------------------------------------------------

  /** The equipment gate: passes when nothing is required or the context has it free. */
  predicate EquipmentFree(procedure: ProcedureDef, ctx: Context)
  {
    procedure.requiredEquipment.None? || procedure.requiredEquipment.value in ctx.available
  }

  /** Calls a handle makes on its own; the coordinator's calls never appear among them. */
  predicate HandleCallsOnly(t: seq<Event>)
  {
    forall i :: 0 <= i < |t| ==> t[i].CompleteProcedure? || t[i].Completed? || t[i].DisposeToken? || t[i].CancelActiveProcedure?
  }

  /**
    What happens from the call to Schedule onwards: a fresh handle is created,
    the context may fire it while scheduling, and the returned token is bound.
  */
  function Launch(procedure: ProcId, ctx: Context, onCompleted: bool): (r: Step)
    ensures HandleCallsOnly(r.trace)
    ensures r.handle.procedure == procedure && !r.handle.disposed
    ensures r.handle.notifyCompleted == onCompleted
    ensures !ctx.firesDuringSchedule ==>
      Live(r.handle) && r.handle.holdsToken == ctx.issuesToken && r.trace == []
    ensures ctx.firesDuringSchedule ==>
      && r.handle.finished && !r.handle.holdsToken
      && r.trace == [CompleteProcedure(procedure)] + (if onCompleted then [Completed] else []) + (if ctx.issuesToken then [DisposeToken] else [])
      && Count(r.trace, CompleteProcedure(procedure)) == 1
      && Count(r.trace, CancelActiveProcedure) == 0
      && Count(r.trace, DisposeToken) == (if ctx.issuesToken then 1 else 0)
      && Count(r.trace, Completed) == (if onCompleted then 1 else 0)
  {
    var start := RunHandle(procedure, onCompleted, false, false, false);
    var fired := if ctx.firesDuringSchedule then OnCompleted(start) else Step(start, []);
    var bound := BindScheduledHandle(fired.handle, ctx, ctx.issuesToken);
    Step(bound.handle, fired.trace + bound.trace)
  }

  /** The equipment query, if the procedure needs equipment. */
  function EquipmentQuery(procedure: ProcedureDef): (r: seq<Event>)
    ensures |r| == (if procedure.requiredEquipment.Some? then 1 else 0)
    ensures forall i :: 0 <= i < |r| ==> r[i] == QueryEquipment(procedure.requiredEquipment.value)
  {
    if procedure.requiredEquipment.Some? then [QueryEquipment(procedure.requiredEquipment.value)] else []
  }

  /** No equipment query among the calls. */
  predicate NoQuery(t: seq<Event>)
  {
    forall i :: 0 <= i < |t| ==> !t[i].QueryEquipment?
  }

  /** The coordinator's calls on a successful run, up to and including Schedule. */
  function Opening(procedure: ProcedureDef, onBegan: bool): seq<Event>
  {
    EquipmentQuery(procedure) + [BeginProcedure(procedure.id)]
      + (if onBegan then [Began] else []) + [Schedule(procedure.durationSeconds)]
  }

  /** The opening calls in order: the query if any, the patient's begin, onBegan if given, Schedule. */
  lemma OpeningOrder(procedure: ProcedureDef, onBegan: bool)
    ensures var r := Opening(procedure, onBegan);
      var q := |EquipmentQuery(procedure)|;
      var b := if onBegan then 1 else 0;
      && |r| == q + b + 2
      && r[q] == BeginProcedure(procedure.id)
      && (onBegan ==> r[q + 1] == Began)
      && r[q + b + 1] == Schedule(procedure.durationSeconds)
  {
  }

  /** The opening begins once, notifies once if asked, and schedules once. */
  lemma OpeningCounts(procedure: ProcedureDef, onBegan: bool)
    ensures var r := Opening(procedure, onBegan);
      && Count(r, BeginProcedure(procedure.id)) == 1
      && Count(r, Began) == (if onBegan then 1 else 0)
      && Count(r, Schedule(procedure.durationSeconds)) == 1
  {
  }

  /** Nothing in the opening completes, cancels, disposes or notifies completion. */
  lemma OpeningQuiet(procedure: ProcedureDef, onBegan: bool)
    ensures var r := Opening(procedure, onBegan);
      DomainCalls(r, procedure.id) == 0 && Count(r, DisposeToken) == 0 && Count(r, Completed) == 0
  {
    var r := Opening(procedure, onBegan);
    assert CoordinatorCallsOnly(r);
    NotCountedAmongCoordinatorCalls(r, CompleteProcedure(procedure.id));
    NotCountedAmongCoordinatorCalls(r, CancelActiveProcedure);
    NotCountedAmongCoordinatorCalls(r, DisposeToken);
    NotCountedAmongCoordinatorCalls(r, Completed);
  }

  lemma OpeningNoQuery(procedure: ProcedureDef, onBegan: bool)
    ensures procedure.requiredEquipment.None? ==> NoQuery(Opening(procedure, onBegan))
  {
  }

  /**
    `patientAccepts` is the patient's answer to TryBeginProcedure;
    `onBegan` and `onCompleted` say whether the caller gave those callbacks.
  */
  function TryRun(procedure: ProcedureDef, ctx: Context, patientAccepts: bool, onBegan: bool, onCompleted: bool): (r: RunResult)
    ensures r.handle.Some? <==> EquipmentFree(procedure, ctx) && patientAccepts
    // equipment first: when it is busy the patient is never asked and nothing is scheduled
    ensures !EquipmentFree(procedure, ctx) ==>
      r == RunResult(None, [QueryEquipment(procedure.requiredEquipment.value)])
    // availability is only queried when equipment is required
    ensures procedure.requiredEquipment.None? ==> NoQuery(r.trace)
    // then the patient's own gate: asked once, and on refusal nothing further happens
    ensures EquipmentFree(procedure, ctx) && !patientAccepts ==>
      r.trace == EquipmentQuery(procedure) + [BeginProcedure(procedure.id)]
  {
    if !EquipmentFree(procedure, ctx) then RunResult(None, EquipmentQuery(procedure))
    else if !patientAccepts then RunResult(None, EquipmentQuery(procedure) + [BeginProcedure(procedure.id)])
    else
      var opening := Opening(procedure, onBegan);
      var launched := Launch(procedure.id, ctx, onCompleted);
      OpeningNoQuery(procedure, onBegan);
      RunResult(Some(launched.handle), opening + launched.trace)
  }

  /** On success the coordinator's calls come first, in order, and the handle's own calls after them. */
  lemma SuccessfulRunShape(procedure: ProcedureDef, ctx: Context, onBegan: bool, onCompleted: bool)
    requires EquipmentFree(procedure, ctx)
    ensures var r := TryRun(procedure, ctx, true, onBegan, onCompleted);
      var opening := Opening(procedure, onBegan);
      && r.handle.Some?
      && |r.trace| >= |opening|
      && r.trace[..|opening|] == opening
      && HandleCallsOnly(r.trace[|opening|..])
      && r.handle.value.procedure == procedure.id
      && r.handle.value.notifyCompleted == onCompleted
      && !r.handle.value.disposed
  {
    var r := TryRun(procedure, ctx, true, onBegan, onCompleted);
    var opening := Opening(procedure, onBegan);
    var launched := Launch(procedure.id, ctx, onCompleted);
    assert r.trace == opening + launched.trace;
    assert r.trace[..|opening|] == opening;
    assert r.trace[|opening|..] == launched.trace;
  }

  /** A context that does not fire early: the run is live, holds its token, and the patient has only been asked to begin. */
  lemma RunLeftLive(procedure: ProcedureDef, ctx: Context, onBegan: bool, onCompleted: bool)
    requires EquipmentFree(procedure, ctx) && !ctx.firesDuringSchedule
    ensures var r := TryRun(procedure, ctx, true, onBegan, onCompleted);
      && r.handle.Some?
      && r.trace == Opening(procedure, onBegan)
      && Live(r.handle.value)
      && r.handle.value.holdsToken == ctx.issuesToken
      && DomainCalls(r.trace, procedure.id) == 0
  {
    OpeningQuiet(procedure, onBegan);
  }

  /**
    A context that fires inside Schedule: the run finishes before its token
    is bound, so that token is disposed at once and not retained, and the
    patient sees exactly one completion and no cancel.
  */
  lemma RunFinishedBeforeBind(procedure: ProcedureDef, ctx: Context, onBegan: bool, onCompleted: bool)
    requires EquipmentFree(procedure, ctx) && ctx.firesDuringSchedule
    ensures var r := TryRun(procedure, ctx, true, onBegan, onCompleted);
      && r.handle.Some?
      && r.handle.value.finished
      && !r.handle.value.holdsToken
      && Count(r.trace, CompleteProcedure(procedure.id)) == 1
      && Count(r.trace, CancelActiveProcedure) == 0
      && Count(r.trace, DisposeToken) == (if ctx.issuesToken then 1 else 0)
      && Count(r.trace, Completed) == (if onCompleted then 1 else 0)
  {
    var opening := Opening(procedure, onBegan);
    var launched := Launch(procedure.id, ctx, onCompleted);
    assert TryRun(procedure, ctx, true, onBegan, onCompleted).trace == opening + launched.trace;
    OpeningQuiet(procedure, onBegan);
    CountAppend(opening, launched.trace, CompleteProcedure(procedure.id));
    CountAppend(opening, launched.trace, CancelActiveProcedure);
    CountAppend(opening, launched.trace, DisposeToken);
    CountAppend(opening, launched.trace, Completed);
  }

  /** On success the patient is asked, onBegan notified if given, and the run scheduled, in that order. */
  lemma SuccessfulRunOrder(procedure: ProcedureDef, ctx: Context, onBegan: bool, onCompleted: bool)
    requires EquipmentFree(procedure, ctx)
    ensures var r := TryRun(procedure, ctx, true, onBegan, onCompleted);
      var q := |EquipmentQuery(procedure)|;
      var b := if onBegan then 1 else 0;
      && r.handle.Some?
      && |r.trace| >= q + b + 2
      && r.trace[q] == BeginProcedure(procedure.id)
      && (onBegan ==> r.trace[q + 1] == Began)
      && r.trace[q + b + 1] == Schedule(procedure.durationSeconds)
  {
    var opening := Opening(procedure, onBegan);
    var launched := Launch(procedure.id, ctx, onCompleted);
    assert TryRun(procedure, ctx, true, onBegan, onCompleted).trace == opening + launched.trace;
    OpeningOrder(procedure, onBegan);
  }

  /**
    The calls of a successful run, counted: exactly one TryBeginProcedure,
    onBegan once if given, and exactly one Schedule with the procedure's
    duration, whatever the handle does afterwards.
  */
  lemma SuccessfulRunCalls(procedure: ProcedureDef, ctx: Context, onBegan: bool, onCompleted: bool)
    requires EquipmentFree(procedure, ctx)
    ensures var r := TryRun(procedure, ctx, true, onBegan, onCompleted);
      && r.handle.Some?
      && Count(r.trace, BeginProcedure(procedure.id)) == 1
      && Count(r.trace, Began) == (if onBegan then 1 else 0)
      && Count(r.trace, Schedule(procedure.durationSeconds)) == 1
  {
    var opening := Opening(procedure, onBegan);
    var launched := Launch(procedure.id, ctx, onCompleted);
    assert TryRun(procedure, ctx, true, onBegan, onCompleted).trace == opening + launched.trace;
    OpeningCounts(procedure, onBegan);
    CountAppend(opening, launched.trace, BeginProcedure(procedure.id));
    CountAppend(opening, launched.trace, Began);
    CountAppend(opening, launched.trace, Schedule(procedure.durationSeconds));
    NotCountedAmongHandleCalls(launched.trace, BeginProcedure(procedure.id));
    NotCountedAmongHandleCalls(launched.trace, Began);
    NotCountedAmongHandleCalls(launched.trace, Schedule(procedure.durationSeconds));
  }

  lemma CountAppend(a: seq<Event>, b: seq<Event>, e: Event)
    ensures Count(a + b, e) == Count(a, e) + Count(b, e)
  {
    assert multiset(a + b) == multiset(a) + multiset(b);
  }

  /** The handle never makes a call of the coordinator's kinds. */
  lemma NotCountedAmongHandleCalls(t: seq<Event>, e: Event)
    requires HandleCallsOnly(t)
    requires e.BeginProcedure? || e.Began? || e.Schedule? || e.QueryEquipment?
    ensures Count(t, e) == 0
  {
    assert e !in t;
  }

  /** Calls only the coordinator makes. */
  predicate CoordinatorCallsOnly(t: seq<Event>)
  {
    forall i :: 0 <= i < |t| ==> t[i].QueryEquipment? || t[i].BeginProcedure? || t[i].Began? || t[i].Schedule?
  }

  /** The coordinator never makes a call of the handle's kinds. */
  lemma NotCountedAmongCoordinatorCalls(t: seq<Event>, e: Event)
    requires CoordinatorCallsOnly(t)
    requires e.CompleteProcedure? || e.Completed? || e.DisposeToken? || e.CancelActiveProcedure?
    ensures Count(t, e) == 0
  {
    assert e !in t;
  }

  // ---------------------------------------------------------------------------
  // The handle's two terminal outcomes
  // ---------------------------------------------------------------------------

  /** The completion fires at most once: a second firing, or one after disposal, does nothing. */
  lemma CompletionFiresOnce(h: RunHandle, ctx: Context)
    ensures OnCompleted(OnCompleted(h).handle).trace == []
    ensures h.disposed ==> OnCompleted(h) == Step(h, [])
    ensures OnCompleted(Dispose(h, ctx).handle) == Step(Dispose(h, ctx).handle, [])
  {
  }

  /** Disposing twice is disposing once. */
  lemma DisposeIsIdempotent(h: RunHandle, ctx: Context)
    ensures var once := Dispose(h, ctx);
      Dispose(once.handle, ctx) == Step(once.handle, [])
  {
  }

  /**
    A context whose token fires the completion from inside its own disposal
    still yields exactly the token disposal followed by one cancel: the
    handle is already marked disposed when the completion re-enters.
  */
  lemma ReentrantCompletionIgnored(h: RunHandle, ctx: Context)
    requires Live(h) && h.holdsToken && ctx.firesOnTokenDispose
    ensures Dispose(h, ctx).trace == [DisposeToken, CancelActiveProcedure]
    ensures !Dispose(h, ctx).handle.finished
  {
  }

  /** Something that can happen to a handle once the caller holds it. */
  datatype HandleOp = Fire | DisposeHandle

  function Apply(h: RunHandle, ctx: Context, op: HandleOp): Step
  {
    match op
    case Fire => OnCompleted(h)
    case DisposeHandle => Dispose(h, ctx)
  }

  /** Applies the operations in order, collecting the calls they make. */
  function ApplyAll(h: RunHandle, ctx: Context, ops: seq<HandleOp>): Step
  {
    if |ops| == 0 then Step(h, [])
    else
      var before := ApplyAll(h, ctx, ops[..|ops| - 1]);
      var last := Apply(before.handle, ctx, ops[|ops| - 1]);
      Step(last.handle, before.trace + last.trace)
  }

  /**
    Per handle, completing and cancelling are mutually exclusive and each
    happens at most once, whatever the order or number of firings and
    disposals, and even when firings re-enter from token disposal or arrive
    after disposal: the patient is completed exactly when the handle
    finished, and cancelled exactly when it was disposed before finishing.
  */
  lemma {:induction false} OutcomesAreExclusive(h: RunHandle, ctx: Context, ops: seq<HandleOp>)
    requires Live(h)
    ensures var s := ApplyAll(h, ctx, ops);
      && s.handle.procedure == h.procedure
      && Count(s.trace, CompleteProcedure(h.procedure)) == (if s.handle.finished then 1 else 0)
      && Count(s.trace, CancelActiveProcedure) == (if s.handle.disposed && !s.handle.finished then 1 else 0)
      && DomainCalls(s.trace, h.procedure) <= 1
  {
    if |ops| > 0 {
      var before := ApplyAll(h, ctx, ops[..|ops| - 1]);
      OutcomesAreExclusive(h, ctx, ops[..|ops| - 1]);
      var last := Apply(before.handle, ctx, ops[|ops| - 1]);
      assert multiset(before.trace + last.trace) == multiset(before.trace) + multiset(last.trace);
    }
  }

  /** Once finished, a handle stays finished and reaches the patient no more. */
  lemma {:induction false} QuietOnceFinished(h: RunHandle, ctx: Context, ops: seq<HandleOp>)
    requires h.finished && !h.holdsToken
    ensures var s := ApplyAll(h, ctx, ops);
      s.handle.finished && s.handle.procedure == h.procedure && !s.handle.holdsToken && DomainCalls(s.trace, h.procedure) == 0
  {
    if |ops| > 0 {
      var before := ApplyAll(h, ctx, ops[..|ops| - 1]);
      QuietOnceFinished(h, ctx, ops[..|ops| - 1]);
      var last := Apply(before.handle, ctx, ops[|ops| - 1]);
      assert last.trace == [];
      assert before.trace + last.trace == before.trace;
    }
  }

  /** The outcome counts over a run's opening calls followed by whatever happens to its handle. */
  predicate OutcomesCounted(t: seq<Event>, h: RunHandle, p: ProcId)
  {
    && Count(t, CompleteProcedure(p)) == (if h.finished then 1 else 0)
    && Count(t, CancelActiveProcedure) == (if h.disposed && !h.finished then 1 else 0)
  }

  lemma ExclusiveAfterLiveStart(opening: seq<Event>, h: RunHandle, ctx: Context, ops: seq<HandleOp>)
    requires Live(h) && DomainCalls(opening, h.procedure) == 0
    ensures var s := ApplyAll(h, ctx, ops); OutcomesCounted(opening + s.trace, s.handle, h.procedure)
  {
    var s := ApplyAll(h, ctx, ops);
    OutcomesAreExclusive(h, ctx, ops);
    CountAppend(opening, s.trace, CompleteProcedure(h.procedure));
    CountAppend(opening, s.trace, CancelActiveProcedure);
  }

  lemma ExclusiveAfterEarlyFinish(opening: seq<Event>, h: RunHandle, ctx: Context, ops: seq<HandleOp>)
    requires h.finished && !h.holdsToken && OutcomesCounted(opening, h, h.procedure)
    ensures var s := ApplyAll(h, ctx, ops); OutcomesCounted(opening + s.trace, s.handle, h.procedure)
  {
    var s := ApplyAll(h, ctx, ops);
    QuietOnceFinished(h, ctx, ops);
    CountAppend(opening, s.trace, CompleteProcedure(h.procedure));
    CountAppend(opening, s.trace, CancelActiveProcedure);
  }

  /**
    Exclusivity for a run as TryRun hands it out, whatever the context: with
    the coordinator's own calls included, and whatever firings and disposals
    follow, the patient is completed once exactly when the run finished and
    cancelled once exactly when it was disposed unfinished. This covers a
    context that fires the completion inside Schedule as well.
  */
  lemma ExclusiveFromTryRun(procedure: ProcedureDef, ctx: Context, onBegan: bool, onCompleted: bool, ops: seq<HandleOp>)
    requires EquipmentFree(procedure, ctx)
    ensures var r := TryRun(procedure, ctx, true, onBegan, onCompleted);
      && r.handle.Some?
      && var s := ApplyAll(r.handle.value, ctx, ops);
      var all := r.trace + s.trace;
      && Count(all, CompleteProcedure(procedure.id)) == (if s.handle.finished then 1 else 0)
      && Count(all, CancelActiveProcedure) == (if s.handle.disposed && !s.handle.finished then 1 else 0)
      && DomainCalls(all, procedure.id) <= 1
  {
    var r := TryRun(procedure, ctx, true, onBegan, onCompleted);
    if ctx.firesDuringSchedule {
      RunFinishedBeforeBind(procedure, ctx, onBegan, onCompleted);
      ExclusiveAfterEarlyFinish(r.trace, r.handle.value, ctx, ops);
    } else {
      RunLeftLive(procedure, ctx, onBegan, onCompleted);
      ExclusiveAfterLiveStart(r.trace, r.handle.value, ctx, ops);
    }
  }
}
