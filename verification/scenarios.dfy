/**
  Concrete end-to-end runs of the model, mirroring the game's own
  walkthroughs of a patient's pathway.
*/
module Scenarios {
  import opened Wrappers
  import opened Collections
  import opened Definitions
  import opened Patients
  import opened PatientProperties
  import PR = ProcedureRun
  import opened RunWithPatient

  const A := ProcId(1)
  const B := ProcId(2)
  const T := ProcId(3)

  function Disease2(): DiseaseDef
  {
    DiseaseDef("D", Some([Some(A), Some(B)]), Some([Some(T)]), 60.0)
  }

  /** A procedure with no tool or equipment requirement and a one-second duration. */
  function Plain(id: ProcId, kind: ProcedureKind): ProcedureDef
  {
    ProcedureDef(id, "P", kind, 1.0, None, None)
  }

  /** A context that never fires by itself and issues a token. */
  const Manual := PR.Context({}, false, false, true)

  /** The disease's arrays are already clean. */
  lemma {:induction false} Disease2IsClean()
    ensures FilterProcedures(Disease2().tests) == [A, B]
    ensures FilterProcedures(Disease2().treatments) == [T]
  {
    assert DistinctPresent([Some(A)]) == [A];
    assert DistinctPresent([Some(A), Some(B)]) == [A, B] by {
      assert [Some(A), Some(B)][..1] == [Some(A)];
    }
    assert DistinctPresent([Some(T)]) == [T];
  }

  /** The patient the two-test disease yields. */
  lemma {:induction false} Admitted()
    ensures var p := Create(Some("Pat"), Some(Disease2())).value;
      && p.tests == [A, B] && p.treatments == [T]
      && p.state == Waiting && !p.diagnosisKnown && TotalTestCount(p) == 2
      && Valid(p)
  {
    Disease2IsClean();
  }

  /** Completing one of two tests leaves the diagnosis hidden and the treatment blocked; the second reveals it. */
  lemma {:induction false} TestsReveal(p0: Patient)
    requires Valid(p0) && p0.tests == [A, B] && p0.treatments == [T]
    requires p0.state == Waiting && p0.completed == {}
    ensures var a1 := TryBeginProcedure(p0, Some(A));
      && a1.accepted
      && var p1 := CompleteProcedure(a1.patient, Some(A));
      && p1.state == Waiting && !p1.diagnosisKnown && CompletedTestCount(p1) == 1
      && !TryBeginProcedure(p1, Some(T)).accepted
      && var b1 := TryBeginProcedure(p1, Some(B));
      && b1.accepted
      && var p2 := CompleteProcedure(b1.patient, Some(B));
      && p2.state == Diagnosed && p2.diagnosisKnown && CompletedTestCount(p2) == 2
      && Valid(p2) && p2.treatments == [T] && p2.tests == [A, B]
  {
    assert Elems([A, B]) == {A, B};
    var a1 := TryBeginProcedure(p0, Some(A));
    var p1 := CompleteProcedure(a1.patient, Some(A));
    assert p1.completed == {A};
    BeginPreservesValid(p0, Some(A));
    CompletePreservesValid(a1.patient, Some(A));
    var b1 := TryBeginProcedure(p1, Some(B));
    var p2 := CompleteProcedure(b1.patient, Some(B));
    assert p2.completed == {A, B};
    BeginPreservesValid(p1, Some(B));
    CompletePreservesValid(b1.patient, Some(B));
  }

  /**
    A treatment run disposed before it completes puts the patient back to
    Diagnosed with the token disposed and no completion; the treatment can
    then be begun again, completed, and the patient discharged exactly once.
  */
  lemma {:induction false} TreatmentRetriedAfterDispose(p: Patient, t: ProcId)
    requires Valid(p) && p.state == Diagnosed
    requires t in p.treatments && t !in p.tests
    ensures var run := PR.TryRun(Plain(t, Treatment), Manual, TryBeginProcedure(p, Some(t)).accepted, false, false);
      && run.handle.Some?
      && Replay(p, run.trace).state == UnderTreatment
      && var disposed := PR.Dispose(run.handle.value, Manual);
      && Replay(p, run.trace + disposed.trace).state == Diagnosed
      && PR.Count(disposed.trace, PR.DisposeToken) == 1
      && PR.Count(run.trace + disposed.trace, PR.CompleteProcedure(t)) == 0
      && var again := TryBeginProcedure(Replay(p, run.trace + disposed.trace), Some(t));
      && again.accepted
      && var ready := CompleteProcedure(again.patient, Some(t));
      && ready.state == ReadyForDischarge
      && var out := TryDischarge(ready);
      && out.accepted && out.patient.state == Discharged
      && !TryDischarge(out.patient).accepted
  {
    var proc := Plain(t, Treatment);
    RunBeginsOnPatient(p, proc, Manual, false, false);
    RunOutcomesOnPatient(p, proc, Manual, false, false);
    PR.RunLeftLive(proc, Manual, false, false);
    var run := PR.TryRun(proc, Manual, true, false, false);
    var disposed := PR.Dispose(run.handle.value, Manual);
    assert multiset(run.trace + disposed.trace) == multiset(run.trace) + multiset(disposed.trace);
    var again := TryBeginProcedure(p, Some(t));
    DischargeIsOneShot(CompleteProcedure(again.patient, Some(t)));
  }

  /** The whole walkthrough: admit, two tests, a disposed treatment run, the treatment again, discharge. */
  lemma FullPathway()
    ensures var p0 := Create(Some("Pat"), Some(Disease2())).value;
      var p2 := CompleteProcedure(TryBeginProcedure(CompleteProcedure(TryBeginProcedure(p0, Some(A)).patient, Some(A)), Some(B)).patient, Some(B));
      && p2.state == Diagnosed
      && var run := PR.TryRun(Plain(T, Treatment), Manual, TryBeginProcedure(p2, Some(T)).accepted, false, false);
      && run.handle.Some?
      && var back := Replay(p2, run.trace + PR.Dispose(run.handle.value, Manual).trace);
      && back.state == Diagnosed
      && TryBeginProcedure(back, Some(T)).accepted
      && TryDischarge(CompleteProcedure(TryBeginProcedure(back, Some(T)).patient, Some(T))).accepted
  {
    Admitted();
    var p0 := Create(Some("Pat"), Some(Disease2())).value;
    TestsReveal(p0);
    var p2 := CompleteProcedure(TryBeginProcedure(CompleteProcedure(TryBeginProcedure(p0, Some(A)).patient, Some(A)), Some(B)).patient, Some(B));
    TreatmentRetriedAfterDispose(p2, T);
  }

  /**
    A stand-in patient that accepts, a context whose equipment is first busy
    and then free, and whose token fires the completion when disposed: the
    first run never reaches the patient or the scheduler; the second asks the
    patient once, schedules once, and its disposal cancels exactly once.
  */
  lemma EquipmentGateThenReentrantDispose()
    ensures var mri := EquipmentId(7);
      var scan := ProcedureDef(A, "Scan", Test, 1.0, None, Some(mri));
      var busy := PR.Context({}, false, true, true);
      var free := PR.Context({mri}, false, true, true);
      var first := PR.TryRun(scan, busy, true, false, false);
      var second := PR.TryRun(scan, free, true, false, false);
      && first.handle.None?
      && PR.Count(first.trace, PR.BeginProcedure(A)) == 0
      && PR.Count(first.trace, PR.Schedule(1.0)) == 0
      && second.handle.Some?
      && PR.Count(second.trace, PR.BeginProcedure(A)) == 1
      && PR.Count(second.trace, PR.Schedule(1.0)) == 1
      && var disposed := PR.Dispose(second.handle.value, free);
      && PR.Count(disposed.trace, PR.CancelActiveProcedure) == 1
      && PR.Count(disposed.trace, PR.CompleteProcedure(A)) == 0
  {
    var mri := EquipmentId(7);
    var scan := ProcedureDef(A, "Scan", Test, 1.0, None, Some(mri));
    var free := PR.Context({mri}, false, true, true);
    PR.SuccessfulRunCalls(scan, free, false, false);
    PR.RunLeftLive(scan, free, false, false);
  }

  /** The missing entries of the arrays are dropped. */
  lemma {:induction false} NullEntriesCleaned()
    ensures FilterProcedures(Some([None, Some(A), None, Some(B)])) == [A, B]
    ensures FilterProcedures(Some([None, Some(T)])) == [T]
  {
    var tests := [None, Some(A), None, Some(B)];
    assert tests[..1] == [None];
    assert tests[..2] == [None, Some(A)];
    assert tests[..3] == [None, Some(A), None];
    assert [None, Some(A)][..1] == [None];
    assert [None, Some(A), None][..2] == [None, Some(A)];
    assert DistinctPresent([None]) == [];
    assert DistinctPresent([None, Some(A)]) == [A];
    assert DistinctPresent([None, Some(A), None]) == [A];
    assert DistinctPresent(tests) == [A, B];
    assert [None, Some(T)][..1] == [None];
    assert DistinctPresent([None, Some(T)]) == [T];
  }

  /** Missing entries in a disease's arrays are skipped; the gating then works on what remains. */
  lemma {:induction false} NullEntriesIgnored()
    ensures var d := DiseaseDef("X", Some([None, Some(A), None, Some(B)]), Some([None, Some(T)]), 120.0);
      var p := Create(Some("P2"), Some(d)).value;
      && p.tests == [A, B] && p.treatments == [T]
      && !TryBeginProcedure(p, Some(T)).accepted
      && TryBeginProcedure(p, Some(A)).accepted
  {
    NullEntriesCleaned();
  }

  /** Cancelling the patient's procedure while its run is still pending sends a one-test patient back to Waiting. */
  lemma {:induction false} CancelDuringRun()
    ensures var p := Create(Some("P"), Some(DiseaseDef("D", Some([Some(A)]), Some([]), 120.0))).value;
      var run := PR.TryRun(Plain(A, Test), Manual, TryBeginProcedure(p, Some(A)).accepted, false, false);
      && run.handle.Some?
      && Replay(p, run.trace).state == UnderTest
      && CancelActiveProcedure(Replay(p, run.trace)).state == Waiting
  {
    var d := DiseaseDef("D", Some([Some(A)]), Some([]), 120.0);
    assert DistinctPresent([Some(A)]) == [A];
    var p := Create(Some("P"), Some(d)).value;
    assert p.tests == [A] && p.completed == {} && p.state == Waiting;
    RunBeginsOnPatient(p, Plain(A, Test), Manual, false, false);
  }

  /**
    A run of test A is cancelled from outside and test B begun; disposing
    A's handle afterwards cancels B as written, while the guarded disposal
    leaves B running.
  */
  lemma {:induction false} StaleHandleCancelsSecondTest(p0: Patient)
    requires Valid(p0) && p0.tests == [A, B] && p0.state == Waiting && p0.completed == {}
    ensures var run := PR.TryRun(Plain(A, Test), Manual, TryBeginProcedure(p0, Some(A)).accepted, false, false);
      && run.handle.Some?
      && var p1 := CancelActiveProcedure(Replay(p0, run.trace));
      && p1.state == Waiting
      && var b := TryBeginProcedure(p1, Some(B));
      && b.accepted && b.patient.active == Some(B)
      && var stale := Replay(b.patient, PR.Dispose(run.handle.value, Manual).trace);
      && stale.active.None? && stale.state == Waiting
      && var guarded := DisposeOwnRun(b.patient, run.handle.value, Manual);
      && guarded == b.patient && guarded.active == Some(B) && guarded.state == UnderTest
  {
    assert Elems([A, B]) == {A, B};
    var proc := Plain(A, Test);
    var begun := TryBeginProcedure(p0, Some(A));
    assert begun.accepted;
    RunBeginsOnPatient(p0, proc, Manual, false, false);
    PR.RunLeftLive(proc, Manual, false, false);
    var run := PR.TryRun(proc, Manual, true, false, false);
    assert Replay(p0, run.trace) == begun.patient;
    BeginThenCancelRestores(p0, Some(A));
    var b := TryBeginProcedure(p0, Some(B));
    assert b.accepted && b.patient.active == Some(B);
    ReplayDispose(b.patient, run.handle.value, Manual);
    DisposeOwnRunSparesOthers(b.patient, run.handle.value, Manual);
  }
}
