/**
  Properties of the patient state machine that relate several operations or
  hold for every reachable patient.
*/
module PatientProperties {
  import opened Wrappers
  import opened Collections
  import opened Definitions
  import opened Patients

  // ---------------------------------------------------------------------------
  // The invariant is kept by every transition
  // ---------------------------------------------------------------------------

  lemma BeginPreservesValid(p: Patient, procedure: Option<ProcId>)
    requires Valid(p)
    ensures Valid(TryBeginProcedure(p, procedure).patient)
  {
  }

  lemma CompletePreservesValid(p: Patient, procedure: Option<ProcId>)
    requires Valid(p)
    ensures Valid(CompleteProcedure(p, procedure))
  {
  }

  lemma CancelPreservesValid(p: Patient)
    requires Valid(p)
    ensures Valid(CancelActiveProcedure(p))
  {
  }

  lemma DischargePreservesValid(p: Patient)
    requires Valid(p)
    ensures Valid(TryDischarge(p).patient)
  {
  }

  /** Whatever the sequence of calls, the completed set only grows. */
  lemma CompletedOnlyGrows(p: Patient, procedure: Option<ProcId>)
    requires Valid(p)
    ensures p.completed <= TryBeginProcedure(p, procedure).patient.completed
    ensures p.completed <= CompleteProcedure(p, procedure).completed
    ensures p.completed == CancelActiveProcedure(p).completed
    ensures p.completed == TryDischarge(p).patient.completed
  {
  }

  // ---------------------------------------------------------------------------
  // Gating
  // ---------------------------------------------------------------------------

  /** A test is only ever started while the diagnosis is still unknown. */
  lemma TestsOnlyBeforeDiagnosis(p: Patient, x: ProcId)
    requires Valid(p)
    requires x in p.tests
    requires TryBeginProcedure(p, Some(x)).accepted
    ensures !p.diagnosisKnown
    ensures x !in p.completed
    ensures TryBeginProcedure(p, Some(x)).patient.state == UnderTest
  {
  }

  /** A treatment is blocked until every one of the patient's tests is complete. */
  lemma TreatmentsOnlyAfterAllTests(p: Patient, x: ProcId)
    requires Valid(p)
    requires x !in p.tests
    requires TryBeginProcedure(p, Some(x)).accepted
    ensures p.completed == Elems(p.tests)
    ensures x in p.treatments
    ensures TryBeginProcedure(p, Some(x)).patient.state == UnderTreatment
  {
  }

  /** Nothing begins while another procedure is active. */
  lemma AtMostOneActive(p: Patient, procedure: Option<ProcId>)
    requires Valid(p)
    requires p.active.Some?
    ensures !TryBeginProcedure(p, procedure).accepted
    ensures TryBeginProcedure(p, procedure).patient.active == p.active
  {
  }

  /**
    Completing the last outstanding test reveals the diagnosis, and from then
    on every listed treatment that is not also a test can be begun.
  */
  lemma {:induction false} LastTestRevealsDiagnosis(p: Patient, x: ProcId, t: ProcId)
    requires Valid(p)
    requires p.active == Some(x) && x in p.tests
    requires Elems(p.tests) - p.completed == {x}
    requires t in p.treatments && t !in p.tests
    ensures CompleteProcedure(p, Some(x)).diagnosisKnown
    ensures CompleteProcedure(p, Some(x)).state == Diagnosed
    ensures TryBeginProcedure(CompleteProcedure(p, Some(x)), Some(t)).accepted
  {
    var q := CompleteProcedure(p, Some(x));
    assert q.completed == Elems(p.tests);
    CompletePreservesValid(p, Some(x));
  }

  /** While a test is outstanding every treatment is refused. */
  lemma TreatmentRefusedWhileTestOutstanding(p: Patient, x: ProcId, t: ProcId)
    requires Valid(p)
    requires x in p.tests && x !in p.completed
    requires t !in p.tests
    ensures !TryBeginProcedure(p, Some(t)).accepted
  {
  }

  // ---------------------------------------------------------------------------
  // Cancelling and discharging
  // ---------------------------------------------------------------------------

  /**
    Cancelling reverts and never advances: an active test falls back to
    Waiting, an active treatment to Diagnosed.
  */
  lemma CancelNeverAdvances(p: Patient)
    requires Valid(p)
    ensures Rank(CancelActiveProcedure(p).state) <= Rank(p.state)
    ensures p.active.Some? ==> Rank(CancelActiveProcedure(p).state) < Rank(p.state)
    ensures p.state == UnderTest ==> CancelActiveProcedure(p).state == Waiting
    ensures p.state == UnderTreatment ==> CancelActiveProcedure(p).state == Diagnosed
  {
  }

  /** Beginning a procedure and then cancelling it leaves the patient exactly as before. */
  lemma BeginThenCancelRestores(p: Patient, procedure: Option<ProcId>)
    requires Valid(p)
    requires TryBeginProcedure(p, procedure).accepted
    ensures CancelActiveProcedure(TryBeginProcedure(p, procedure).patient) == p
  {
  }

  /** Discharge is one-shot: a second attempt is always refused and changes nothing. */
  lemma DischargeIsOneShot(p: Patient)
    ensures var once := TryDischarge(p).patient;
      !TryDischarge(once).accepted && TryDischarge(once).patient == once
  {
  }

  /** A discharged patient accepts no further procedure. */
  lemma DischargedIsTerminal(p: Patient, procedure: Option<ProcId>)
    requires p.state == Discharged
    ensures TryBeginProcedure(p, procedure) == Attempt(false, p)
    ensures !TryDischarge(p).accepted
  {
  }

  // ---------------------------------------------------------------------------
  // Cleaning the disease's lists
  // ---------------------------------------------------------------------------

  function Wrap(s: seq<ProcId>): (r: seq<Option<ProcId>>)
    ensures |r| == |s| && forall i :: 0 <= i < |s| ==> r[i] == Some(s[i])
  {
    if |s| == 0 then [] else Wrap(s[..|s| - 1]) + [Some(s[|s| - 1])]
  }

  /** The disease with its arrays replaced by their cleaned contents. */
  function Cleaned(d: DiseaseDef): DiseaseDef
  {
    d.(tests := Some(Wrap(FilterProcedures(d.tests))),
       treatments := Some(Wrap(FilterProcedures(d.treatments))))
  }

  /** An already clean list passes through the cleaning unchanged. */
  lemma {:induction false} CleanListIsFixed(s: seq<ProcId>)
    requires NoDup(s)
    ensures DistinctPresent(Wrap(s)) == s
  {
    if |s| > 0 {
      var w := Wrap(s);
      var init := s[..|s| - 1];
      assert NoDup(init);
      assert w[..|w| - 1] == Wrap(init);
      CleanListIsFixed(init);
      assert s == init + [s[|s| - 1]];
    }
  }

  lemma FilterOfCleanIsIdentity(source: Option<seq<Option<ProcId>>>)
    ensures FilterProcedures(Some(Wrap(FilterProcedures(source)))) == FilterProcedures(source)
  {
    var f := FilterProcedures(source);
    CleanListIsFixed(f);
  }

  /**
    A disease whose arrays hold missing or repeated entries yields the same
    patient as the disease with those entries removed.
  */
  lemma NullsAndDuplicatesAreIgnored(name: Option<string>, d: DiseaseDef)
    ensures Create(name, Some(d)).value == Create(name, Some(Cleaned(d))).value.(disease := d)
  {
    FilterOfCleanIsIdentity(d.tests);
    FilterOfCleanIsIdentity(d.treatments);
  }
}
