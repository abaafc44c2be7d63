/**
  The patient state machine. A patient moves
  Waiting -> UnderTest -> ... -> Diagnosed -> UnderTreatment -> ReadyForDischarge -> Discharged,
  driven only by TryBeginProcedure, CompleteProcedure, CancelActiveProcedure
  and TryDischarge. Each operation is a pure function from the old patient to
  the new one.
*/
module Patients {
  import opened Wrappers
  import opened Collections
  import opened Definitions

  datatype PatientState = Waiting | UnderTest | Diagnosed | UnderTreatment | ReadyForDischarge | Discharged

  /**
    `tests` and `treatments` are the disease's lists after cleaning;
    `completed` is the set of finished tests; `active` is the procedure in
    progress, if any.
  */
  datatype Patient = Patient(
    displayName: string,
    disease: DiseaseDef,
    state: PatientState,
    diagnosisKnown: bool,
    tests: seq<ProcId>,
    treatments: seq<ProcId>,
    completed: set<ProcId>,
    active: Option<ProcId>)

  /** The answer of a Try* operation and the patient after it. */
  datatype Attempt = Attempt(accepted: bool, patient: Patient)

  /** Constructing a patient without a disease is a programming error. */
  datatype ConstructionError = NullDisease

  /** How far along the pathway a state is; used to say that cancelling never advances. */
  function Rank(s: PatientState): nat
  {
    match s
    case Waiting => 0
    case UnderTest => 1
    case Diagnosed => 2
    case UnderTreatment => 3
    case ReadyForDischarge => 4
    case Discharged => 5
  }

  // ---------------------------------------------------------------------------
  // Cleaning the disease's lists
  // ---------------------------------------------------------------------------

  /** The position of the first occurrence of `x` in `s`. */
  function FirstIndex(s: seq<Option<ProcId>>, x: ProcId): (i: nat)
    requires Some(x) in s
    ensures i < |s| && s[i] == Some(x)
    ensures forall k :: 0 <= k < i ==> s[k] != Some(x)
  {
    if s[0] == Some(x) then 0 else 1 + FirstIndex(s[1..], x)
  }

  lemma FirstIndexOfPrefix(s: seq<Option<ProcId>>, n: nat)
    requires n <= |s|
    ensures forall x :: Some(x) in s[..n] ==> FirstIndex(s, x) == FirstIndex(s[..n], x)
  {
    forall x | Some(x) in s[..n]
      ensures FirstIndex(s, x) == FirstIndex(s[..n], x)
    {
      var i := FirstIndex(s, x);
      var j := FirstIndex(s[..n], x);
      assert s[j] == Some(x);
    }
  }

  /** The identifiers a (possibly missing) disease array mentions, ignoring missing entries. */
  function Mentioned(source: Option<seq<Option<ProcId>>>): set<ProcId>
  {
    if source.None? then {} else set o | o in source.value && o.Some? :: o.value
  }

  /**
    Drops missing entries and repeats, keeping each identifier at the place
    of its first occurrence.
  */
  function DistinctPresent(s: seq<Option<ProcId>>): (r: seq<ProcId>)
    ensures NoDup(r)
    ensures forall x :: x in r <==> Some(x) in s
    ensures forall i, j :: 0 <= i < j < |r| ==> FirstIndex(s, r[i]) < FirstIndex(s, r[j])
  {
    if |s| == 0 then []
    else
      var init := s[..|s| - 1];
      var rest := DistinctPresent(init);
      FirstIndexOfPrefix(s, |s| - 1);
      match s[|s| - 1]
      case None => rest
      case Some(x) =>
        if x in rest then rest
        else
          assert FirstIndex(s, x) == |s| - 1;
          rest + [x]
  }

  /** The cleaning the constructor applies to each of the disease's arrays. */
  function FilterProcedures(source: Option<seq<Option<ProcId>>>): (r: seq<ProcId>)
    ensures NoDup(r)
    ensures Elems(r) == Mentioned(source)
    ensures source.Some? ==> forall x :: x in r <==> Some(x) in source.value
    ensures source.Some? ==> forall i, j :: 0 <= i < j < |r| ==> FirstIndex(source.value, r[i]) < FirstIndex(source.value, r[j])
  {
    if source.None? || |source.value| == 0 then [] else DistinctPresent(source.value)
  }

  /** Searches the cleaned list for the procedure, by identity. */
  function TryResolveCandidate(candidates: seq<ProcId>, procedure: Option<ProcId>): (m: Option<ProcId>)
    ensures m.Some? <==> procedure.Some? && procedure.value in candidates
    ensures m.Some? ==> m == procedure
  {
    if procedure.None? || |candidates| == 0 then None
    else if candidates[0] == procedure.value then Some(candidates[0])
    else TryResolveCandidate(candidates[1..], procedure)
  }

  // ---------------------------------------------------------------------------
  // The invariant every reachable patient satisfies
  // ---------------------------------------------------------------------------

  ghost predicate Valid(p: Patient)
  {
    && NoDup(p.tests)
    && NoDup(p.treatments)
    && p.completed <= Elems(p.tests)
    && (p.diagnosisKnown <==> p.completed == Elems(p.tests))
    && (p.active.Some? <==> p.state in {UnderTest, UnderTreatment})
    && (p.state == UnderTest ==> p.active.value in p.tests && p.active.value !in p.completed)
    && (p.state == UnderTreatment ==> p.active.value !in p.tests && p.active.value in p.treatments && p.diagnosisKnown)
    && (p.state == Waiting ==> !p.diagnosisKnown)
    && (p.state in {Diagnosed, ReadyForDischarge, Discharged} ==> p.diagnosisKnown)
  }

  /** How many tests are done; on a well-formed patient never more than there are. */
  function CompletedTestCount(p: Patient): (n: nat)
    ensures NoDup(p.tests) && p.completed <= Elems(p.tests) ==> n <= TotalTestCount(p)
  {
    if NoDup(p.tests) && p.completed <= Elems(p.tests) then
      SubsetCard(p.completed, Elems(p.tests));
      |p.completed|
    else |p.completed|
  }

  /** The length of the cleaned test list; on a list without repeats, the number of distinct tests. */
  function TotalTestCount(p: Patient): (n: nat)
    ensures NoDup(p.tests) ==> n == |Elems(p.tests)|
  {
    if NoDup(p.tests) then
      NoDupCard(p.tests);
      |p.tests|
    else |p.tests|
  }

  /**
    Decided by counting, as the game does. On a well-formed patient the count
    agrees with "the completed set is the whole test list".
  */
  function AreAllTestsCompleted(p: Patient): (b: bool)
    ensures NoDup(p.tests) && p.completed <= Elems(p.tests) ==> (b <==> p.completed == Elems(p.tests))
  {
    if NoDup(p.tests) && p.completed <= Elems(p.tests) then
      SubsetCountIsSetEquality(p.completed, p.tests);
      CompletedTestCount(p) >= TotalTestCount(p)
    else CompletedTestCount(p) >= TotalTestCount(p)
  }

  /** Re-derives the diagnosis flag and the resting state from the completed tests. */
  function RefreshDiagnosisState(p: Patient): (r: Patient)
    requires NoDup(p.tests) && p.completed <= Elems(p.tests)
    ensures r.diagnosisKnown <==> p.completed == Elems(p.tests)
    ensures r.state == (if r.diagnosisKnown then Diagnosed else Waiting)
    ensures r == p.(diagnosisKnown := r.diagnosisKnown, state := r.state)
  {
    var known := AreAllTestsCompleted(p);
    p.(diagnosisKnown := known, state := if known then Diagnosed else Waiting)
  }

  // ---------------------------------------------------------------------------
  // Construction and the four transitions
  // ---------------------------------------------------------------------------

  /** The constructor: cleans the lists, starts with nothing completed, derives the diagnosis. */
  function Create(displayName: Option<string>, disease: Option<DiseaseDef>): (r: Result<Patient, ConstructionError>)
    ensures disease.None? <==> r.Failure?
    ensures r.Success? ==>
      var p := r.value;
      && p.disease == disease.value
      && p.displayName == (if displayName.Some? then displayName.value else "Patient")
      && Valid(p)
      && p.completed == {} && p.active.None?
      && Elems(p.tests) == Mentioned(disease.value.tests)
      && Elems(p.treatments) == Mentioned(disease.value.treatments)
      && TotalTestCount(p) == |Mentioned(disease.value.tests)|
      && (p.diagnosisKnown <==> TotalTestCount(p) == 0)
      && p.state == (if TotalTestCount(p) == 0 then Diagnosed else Waiting)
  {
    if disease.None? then Failure(NullDisease)
    else
      var d := disease.value;
      var tests := FilterProcedures(d.tests);
      NoDupCard(tests);
      var initial := Patient(
        if displayName.Some? then displayName.value else "Patient",
        d, Waiting, false, tests, FilterProcedures(d.treatments), {}, None);
      Success(RefreshDiagnosisState(initial))
  }

  function TryBeginProcedure(p: Patient, procedure: Option<ProcId>): (r: Attempt)
    // refusals change nothing
    ensures !r.accepted ==> r.patient == p
    ensures procedure.None? || p.active.Some? || p.state == Discharged ==> !r.accepted
    ensures procedure.Some? && procedure.value !in p.tests && procedure.value !in p.treatments ==> !r.accepted
    // a listed test: not yet done, some test still outstanding, and not past testing
    ensures procedure.Some? && p.active.None? && p.state != Discharged && procedure.value in p.tests ==>
      (r.accepted <==> procedure.value !in p.completed && !AreAllTestsCompleted(p) && p.state in {Waiting, UnderTest})
    // a treatment (a procedure on both lists counts as a test)
    ensures procedure.Some? && p.active.None? && p.state != Discharged && procedure.value !in p.tests ==>
      (r.accepted <==> procedure.value in p.treatments && p.diagnosisKnown && p.state in {Diagnosed, UnderTreatment})
    ensures r.accepted ==>
      r.patient == p.(active := procedure, state := if procedure.value in p.tests then UnderTest else UnderTreatment)
  {
    if procedure.None? || p.active.Some? || p.state == Discharged then Attempt(false, p)
    else
      match TryResolveCandidate(p.tests, procedure)
      case Some(test) =>
        if test in p.completed || AreAllTestsCompleted(p) then Attempt(false, p)
        else if p.state == Waiting || p.state == UnderTest then Attempt(true, p.(active := procedure, state := UnderTest))
        else Attempt(false, p)
      case None =>
        match TryResolveCandidate(p.treatments, procedure)
        case Some(_) =>
          if p.diagnosisKnown && (p.state == Diagnosed || p.state == UnderTreatment) then
            Attempt(true, p.(active := procedure, state := UnderTreatment))
          else Attempt(false, p)
        case None => Attempt(false, p)
  }

  function CompleteProcedure(p: Patient, procedure: Option<ProcId>): (r: Patient)
    requires NoDup(p.tests) && p.completed <= Elems(p.tests)
    // only the active procedure can be completed
    ensures procedure != p.active ==> r == p
    ensures procedure == p.active ==> r.active.None?
    ensures r.completed == if procedure == p.active && procedure.Some? && procedure.value in p.tests
                           then p.completed + {procedure.value} else p.completed
    // completing a test re-derives the diagnosis from the completed set
    ensures procedure == p.active && procedure.Some? && procedure.value in p.tests ==>
      && (r.diagnosisKnown <==> r.completed == Elems(p.tests))
      && r.state == (if r.diagnosisKnown then Diagnosed else Waiting)
    // completing a treatment makes the patient ready to go
    ensures procedure == p.active && procedure.Some? && procedure.value !in p.tests && procedure.value in p.treatments ==>
      && r.diagnosisKnown == p.diagnosisKnown
      && r.state == (if p.diagnosisKnown then ReadyForDischarge else Diagnosed)
    // no procedure, or one on neither list, only clears the active slot
    ensures procedure.None? ==> r == p
    ensures procedure == p.active && procedure.Some? && procedure.value !in p.tests && procedure.value !in p.treatments ==>
      r == p.(active := None)
    ensures r.tests == p.tests && r.treatments == p.treatments && r.disease == p.disease && r.displayName == p.displayName
  {
    if p.active != procedure then p
    else
      var cleared := p.(active := None);
      match TryResolveCandidate(p.tests, procedure)
      case Some(test) => RefreshDiagnosisState(cleared.(completed := cleared.completed + {test}))
      case None =>
        match TryResolveCandidate(p.treatments, procedure)
        case Some(_) => cleared.(state := if p.diagnosisKnown then ReadyForDischarge else Diagnosed)
        case None => cleared
  }

  function CancelActiveProcedure(p: Patient): (r: Patient)
    ensures p.active.None? ==> r == p
    ensures r.active.None?
    ensures r.completed == p.completed && r.diagnosisKnown == p.diagnosisKnown
    ensures r.tests == p.tests && r.treatments == p.treatments && r.disease == p.disease && r.displayName == p.displayName
    ensures p.active.Some? ==> r.state == (if p.diagnosisKnown then Diagnosed else Waiting)
  {
    if p.active.None? then p
    else p.(active := None, state := if p.diagnosisKnown then Diagnosed else Waiting)
  }

  function TryDischarge(p: Patient): (r: Attempt)
    ensures r.accepted <==> p.state == ReadyForDischarge
    ensures r.accepted ==> r.patient == p.(state := Discharged)
    ensures !r.accepted ==> r.patient == p
  {
    if p.state != ReadyForDischarge then Attempt(false, p)
    else Attempt(true, p.(state := Discharged))
  }
}
