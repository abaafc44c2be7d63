/**
  The run coordinator composed with the real patient state machine: the
  patient's calls in a run's trace are replayed on a Patient value, and the
  patient's own answer is the one the coordinator was given.
*/
module RunWithPatient {
  import opened Wrappers
  import opened Collections
  import opened Definitions
  import opened Patients
  import opened PatientProperties
  import PR = ProcedureRun

  /** The shape CompleteProcedure relies on; every transition keeps it. */
  predicate WellFormed(p: Patient)
  {
    NoDup(p.tests) && p.completed <= Elems(p.tests)
  }

  /** The effect of one collaborator call on the patient; calls to anyone else leave it alone. */
  function Deliver(p: Patient, e: PR.Event): (r: Patient)
    requires WellFormed(p)
    ensures WellFormed(r)
  {
    match e
    case BeginProcedure(x) => TryBeginProcedure(p, Some(x)).patient
    case CompleteProcedure(x) => CompleteProcedure(p, Some(x))
    case CancelActiveProcedure => CancelActiveProcedure(p)
    case _ => p
  }

  function Replay(p: Patient, t: seq<PR.Event>): (r: Patient)
    requires WellFormed(p)
    ensures WellFormed(r)
    decreases |t|
  {
    if |t| == 0 then p else Replay(Deliver(p, t[0]), t[1..])
  }

  lemma {:induction false} ReplayAppend(p: Patient, a: seq<PR.Event>, b: seq<PR.Event>)
    requires WellFormed(p)
    ensures Replay(p, a + b) == Replay(Replay(p, a), b)
    decreases |a|
  {
    if |a| > 0 {
      assert (a + b)[0] == a[0];
      assert (a + b)[1..] == a[1..] + b;
      ReplayAppend(Deliver(p, a[0]), a[1..], b);
    } else {
      assert a + b == b;
    }
  }

  lemma ReplayOne(p: Patient, e: PR.Event)
    requires WellFormed(p)
    ensures Replay(p, [e]) == Deliver(p, e)
  {
  }

  /** Replaying calls that never reach the patient leaves it alone. */
  lemma {:induction false} ReplayIgnoresOthers(p: Patient, t: seq<PR.Event>)
    requires WellFormed(p)
    requires forall i :: 0 <= i < |t| ==> !t[i].BeginProcedure? && !t[i].CompleteProcedure? && !t[i].CancelActiveProcedure?
    ensures Replay(p, t) == p
    decreases |t|
  {
    if |t| > 0 {
      ReplayIgnoresOthers(p, t[1..]);
    }
  }

  /** The coordinator's opening calls reach the patient only through its one TryBeginProcedure. */
  lemma ReplayOpening(p: Patient, procedure: ProcedureDef, onBegan: bool)
    requires WellFormed(p)
    ensures Replay(p, PR.EquipmentQuery(procedure) + [PR.BeginProcedure(procedure.id)])
         == TryBeginProcedure(p, Some(procedure.id)).patient
    ensures Replay(p, PR.Opening(procedure, onBegan)) == TryBeginProcedure(p, Some(procedure.id)).patient
  {
    var q := PR.EquipmentQuery(procedure);
    var begin := [PR.BeginProcedure(procedure.id)];
    var rest := (if onBegan then [PR.Began] else []) + [PR.Schedule(procedure.durationSeconds)];
    var begun := TryBeginProcedure(p, Some(procedure.id)).patient;
    ReplayIgnoresOthers(p, q);
    ReplayAppend(p, q, begin);
    ReplayOne(p, PR.BeginProcedure(procedure.id));
    assert PR.Opening(procedure, onBegan) == (q + begin) + rest;
    ReplayAppend(p, q + begin, rest);
    ReplayIgnoresOthers(begun, rest);
  }

  /**
    Against the real patient, a run leaves it exactly as TryBeginProcedure
    would: begun when the run was handed out, untouched otherwise (in
    particular when the equipment is busy).
  */
  lemma RunBeginsOnPatient(p: Patient, procedure: ProcedureDef, ctx: PR.Context, onBegan: bool, onCompleted: bool)
    requires Valid(p)
    requires !ctx.firesDuringSchedule
    ensures var begin := TryBeginProcedure(p, Some(procedure.id));
      var r := PR.TryRun(procedure, ctx, begin.accepted, onBegan, onCompleted);
      && Replay(p, r.trace) == (if r.handle.Some? then begin.patient else p)
      && Valid(Replay(p, r.trace))
  {
    var begin := TryBeginProcedure(p, Some(procedure.id));
    var r := PR.TryRun(procedure, ctx, begin.accepted, onBegan, onCompleted);
    BeginPreservesValid(p, Some(procedure.id));
    ReplayOpening(p, procedure, onBegan);
    if !PR.EquipmentFree(procedure, ctx) {
      ReplayIgnoresOthers(p, r.trace);
    } else if begin.accepted {
      PR.RunLeftLive(procedure, ctx, onBegan, onCompleted);
    }
  }

  /** Disposing a live run that holds its token reaches the patient as one cancel. */
  lemma ReplayDispose(p: Patient, h: PR.RunHandle, ctx: PR.Context)
    requires WellFormed(p)
    requires PR.Live(h)
    ensures Replay(p, PR.Dispose(h, ctx).trace) == CancelActiveProcedure(p)
  {
    var d := PR.Dispose(h, ctx).trace;
    var tokenPart := if h.holdsToken then PR.DisposeScheduledToken(h.(disposed := true), ctx).trace else [];
    assert d == tokenPart + [PR.CancelActiveProcedure];
    assert tokenPart == [] || tokenPart == [PR.DisposeToken];
    ReplayAppend(p, tokenPart, [PR.CancelActiveProcedure]);
    ReplayIgnoresOthers(p, tokenPart);
  }

  /** The first completion of a live run reaches the patient as one CompleteProcedure. */
  lemma ReplayCompletion(p: Patient, h: PR.RunHandle)
    requires WellFormed(p)
    requires PR.Live(h)
    ensures Replay(p, PR.OnCompleted(h).trace) == CompleteProcedure(p, Some(h.procedure))
  {
    var notify := if h.notifyCompleted then [PR.Completed] else [];
    ReplayAppend(p, [PR.CompleteProcedure(h.procedure)], notify);
    ReplayIgnoresOthers(CompleteProcedure(p, Some(h.procedure)), notify);
  }

  /**
    Disposing a run before it completes hands the patient back exactly as it
    was before the run began; completing it instead completes the procedure.
  */
  lemma RunOutcomesOnPatient(p: Patient, procedure: ProcedureDef, ctx: PR.Context, onBegan: bool, onCompleted: bool)
    requires Valid(p)
    requires !ctx.firesDuringSchedule
    requires PR.EquipmentFree(procedure, ctx)
    requires TryBeginProcedure(p, Some(procedure.id)).accepted
    ensures var begun := TryBeginProcedure(p, Some(procedure.id)).patient;
      var r := PR.TryRun(procedure, ctx, true, onBegan, onCompleted);
      && r.handle.Some?
      && Replay(p, r.trace + PR.Dispose(r.handle.value, ctx).trace) == p
      && Replay(p, r.trace + PR.OnCompleted(r.handle.value).trace) == CompleteProcedure(begun, Some(procedure.id))
      && DisposeOwnRun(Replay(p, r.trace), r.handle.value, ctx) == p
  {
    var begun := TryBeginProcedure(p, Some(procedure.id)).patient;
    var r := PR.TryRun(procedure, ctx, true, onBegan, onCompleted);
    RunBeginsOnPatient(p, procedure, ctx, onBegan, onCompleted);
    PR.RunLeftLive(procedure, ctx, onBegan, onCompleted);
    var h := r.handle.value;
    ReplayAppend(p, r.trace, PR.Dispose(h, ctx).trace);
    ReplayDispose(begun, h, ctx);
    BeginThenCancelRestores(p, Some(procedure.id));
    ReplayAppend(p, r.trace, PR.OnCompleted(h).trace);
    ReplayCompletion(begun, h);
    DisposeOwnRunCancelsOwn(begun, h, ctx);
  }

  // ---------------------------------------------------------------------------
  // Disposing a stale handle
  // ---------------------------------------------------------------------------

  /**
    As written, a live handle's disposal cancels whatever procedure the
    patient has active, also when that is not the handle's own: its run may
    have been cancelled elsewhere and another procedure begun since.
  */
  lemma StaleDisposeCancelsOther(p: Patient, h: PR.RunHandle, ctx: PR.Context)
    requires WellFormed(p) && PR.Live(h)
    requires p.active.Some? && p.active != Some(h.procedure)
    ensures Replay(p, PR.Dispose(h, ctx).trace).active.None?
    ensures Replay(p, PR.Dispose(h, ctx).trace) != p
  {
    ReplayDispose(p, h, ctx);
  }

  /**
    The disposal with the guard CompleteProcedure already has: the handle's
    calls are made as before, but the patient is only cancelled while the
    handle's own procedure is the active one.
  */
  function DisposeOwnRun(p: Patient, h: PR.RunHandle, ctx: PR.Context): (r: Patient)
    requires WellFormed(p)
    ensures WellFormed(r)
  {
    if p.active == Some(h.procedure) then Replay(p, PR.Dispose(h, ctx).trace) else p
  }

  /** The guarded disposal never touches another run's procedure. */
  lemma DisposeOwnRunSparesOthers(p: Patient, h: PR.RunHandle, ctx: PR.Context)
    requires WellFormed(p)
    requires p.active != Some(h.procedure)
    ensures DisposeOwnRun(p, h, ctx) == p
  {
  }

  /** On its own run, the guarded disposal cancels exactly as before. */
  lemma DisposeOwnRunCancelsOwn(p: Patient, h: PR.RunHandle, ctx: PR.Context)
    requires WellFormed(p) && PR.Live(h)
    requires p.active == Some(h.procedure)
    ensures DisposeOwnRun(p, h, ctx) == CancelActiveProcedure(p)
    ensures DisposeOwnRun(p, h, ctx) == Replay(p, PR.Dispose(h, ctx).trace)
  {
    ReplayDispose(p, h, ctx);
  }
}
