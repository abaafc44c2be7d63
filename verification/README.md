# MedMania core, modelled in Dafny

MedMania is a hospital-management game. A patient arrives with a disease. The staff
run the disease's tests until the diagnosis is known, then its treatments, and then
discharge the patient. This project models the rule-bearing core of the game and
proves properties about it:

- **Patient** (`patient.dfy`, `patient_properties.dfy`): the patient state machine.
  - States: Waiting, UnderTest, Diagnosed, UnderTreatment, ReadyForDischarge and Discharged.
  - Construction cleans the disease's test and treatment arrays. It drops missing and repeated entries and keeps the order of first occurrence.
  - Tests are gated on the diagnosis being unknown. Treatments are gated on every test being complete.
  - At most one procedure is active at a time.
  - Cancelling falls back to Waiting or Diagnosed. Discharge happens once.
- **ProcedureRun** (`procedure_run.dfy`): the coordinator that gates a timed procedure run.
  - The equipment gate comes first. The patient's own gate comes second.
  - It then schedules the completion and hands back a run handle.
  - The handle completes the procedure at most once, or cancels it when disposed before completion, never both.
  - This holds even when the scheduler fires the completion inside `Schedule`, from inside the token's disposal, or after disposal.
  - `run_with_patient.dfy` replays the coordinator's calls on the real patient model.
- **CarrySlot** (`carry_slot.dfy`): a slot holding at most one carried object. Every change of occupant raises exactly one OccupantChanged notification.
- **TransporterView** (`transporter.dfy`): a transporter that loads and unloads a patient through its carry slot.
- **ProcedureStationRegistry** (`station_registry.dfy`): the scene's list of procedure stations. It never holds a missing station and never holds a station twice.

Modelling choices:
- **Identity.** Procedures, equipment, stations and carried objects are identified by stable identifiers. The game compares them by reference (and `Equals` for procedures); here the identifier is compared.
- **Null.** A null argument or array is `None`. The patient constructor's `ArgumentNullException` is a `Failure` result.
- **Values, not objects.** Every mutable object is an immutable value, and every operation returns the new value.
- **Calls into collaborators.** The scheduler, the equipment query, the patient and the callbacks are collaborators of the coordinator. Each call into one is recorded in order as an `Event`.
- **The scheduling context.** It is described by the equipment it has free, whether it fires the completion inside `Schedule`, whether disposing its token fires the completion, and whether it returns a token.
- **The patient's answer.** Inside `ProcedureRun.TryRun` the patient's answer to `TryBeginProcedure` is a parameter. `RunWithPatient` supplies the real patient's answer and replays the trace on the real patient.

## Model

| member | source | states |
|---|---|---|
| Patients.DistinctPresent | Assets/Scripts/Core.Domain/Patients/Patient.cs:140-143 | dropping missing entries and repeats yields a repeat-free list whose members are exactly the identifiers present, in order of first occurrence |
| Patients.FilterProcedures | Assets/Scripts/Core.Domain/Patients/Patient.cs:133-144 | a missing or empty array cleans to the empty list; otherwise the result has no repeats, holds exactly the present identifiers and keeps first-occurrence order |
| Patients.TryResolveCandidate | Assets/Scripts/Core.Domain/Patients/Patient.cs:115-131 | a match is found exactly when the procedure is given and listed, and the match is that procedure |
| Patients.CompletedTestCount | Assets/Scripts/Core.Domain/Patients/Patient.cs:21 | on a patient whose tests have no repeats and whose completed tests are listed tests, the number of completed tests never exceeds the number of tests |
| Patients.TotalTestCount | Assets/Scripts/Core.Domain/Patients/Patient.cs:22 | on a list without repeats, the test count is the number of distinct tests |
| Patients.AreAllTestsCompleted | Assets/Scripts/Core.Domain/Patients/Patient.cs:21-23 | the count-based "all tests completed" agrees with "the completed set is the whole test list" whenever the tests have no repeats and only listed tests are completed |
| Patients.RefreshDiagnosisState | Assets/Scripts/Core.Domain/Patients/Patient.cs:146-150 | the diagnosis is known exactly when every test is complete; the state becomes Diagnosed or Waiting accordingly; nothing else changes |
| Patients.Create | Assets/Scripts/Core.Domain/Patients/Patient.cs:30-40 | no disease is an error; otherwise the name defaults to "Patient", the lists hold the disease's present entries once each, nothing is completed or active, the invariant holds, and a disease with no tests starts Diagnosed |
| Patients.TryBeginProcedure | Assets/Scripts/Core.Domain/Patients/Patient.cs:42-78 | a refusal changes nothing; a listed test begins iff it is not yet done, some test is outstanding and testing is still under way; a treatment begins iff the diagnosis is known and the patient is Diagnosed or UnderTreatment; acceptance makes it the active procedure |
| Patients.CompleteProcedure | Assets/Scripts/Core.Domain/Patients/Patient.cs:80-95 | only the active procedure completes; a missing procedure changes nothing; a test joins the completed set and the diagnosis is re-derived; a treatment moves the patient to ReadyForDischarge; a procedure on neither list only clears the active slot; the name, disease and lists never change |
| Patients.CancelActiveProcedure | Assets/Scripts/Core.Domain/Patients/Patient.cs:97-105 | without an active procedure nothing changes; otherwise the active procedure is cleared and the patient rests at Diagnosed or Waiting by the diagnosis flag; the completed tests, the diagnosis flag, the name, the disease and the lists are kept |
| Patients.TryDischarge | Assets/Scripts/Core.Domain/Patients/Patient.cs:107-113 | succeeds exactly from ReadyForDischarge and then only the state changes, to Discharged |
| PatientProperties.BeginPreservesValid | Assets/Scripts/Core.Domain/Patients/Patient.cs:42-78 | beginning a procedure keeps the patient invariant |
| PatientProperties.CompletePreservesValid | Assets/Scripts/Core.Domain/Patients/Patient.cs:80-95 | completing a procedure keeps the patient invariant |
| PatientProperties.CancelPreservesValid | Assets/Scripts/Core.Domain/Patients/Patient.cs:97-105 | cancelling keeps the patient invariant |
| PatientProperties.DischargePreservesValid | Assets/Scripts/Core.Domain/Patients/Patient.cs:107-113 | discharging keeps the patient invariant |
| PatientProperties.CompletedOnlyGrows | Assets/Scripts/Core.Domain/Patients/Patient.cs:84-90 | no transition ever removes a completed test |
| PatientProperties.TestsOnlyBeforeDiagnosis | Assets/Scripts/Core.Domain/Patients/Patient.cs:48-60 | a test that begins was outstanding, the diagnosis was still unknown, and the patient goes UnderTest |
| PatientProperties.TreatmentsOnlyAfterAllTests | Assets/Scripts/Core.Domain/Patients/Patient.cs:65-72 | a treatment that begins is listed, every test was already complete, and the patient goes UnderTreatment |
| PatientProperties.AtMostOneActive | Assets/Scripts/Core.Domain/Patients/Patient.cs:45 | while a procedure is active nothing else begins and the active one stays |
| PatientProperties.LastTestRevealsDiagnosis | Assets/Scripts/Core.Domain/Patients/Patient.cs:86-90 | completing the last outstanding test reveals the diagnosis, makes the patient Diagnosed and opens every treatment |
| PatientProperties.TreatmentRefusedWhileTestOutstanding | Assets/Scripts/Tests/EditMode/Patient_DiagnosisGating_Tests.cs:39-44 | while any test is outstanding every treatment is refused |
| PatientProperties.CancelNeverAdvances | Assets/Scripts/Core.Domain/Patients/Patient.cs:97-105 | cancelling never moves the patient forward along the pathway; an active test falls back to Waiting, an active treatment to Diagnosed |
| PatientProperties.BeginThenCancelRestores | Assets/Scripts/Tests/EditMode/Patient_Flow_Tests.cs:66-82 | beginning a procedure and cancelling it gives back exactly the patient from before |
| PatientProperties.DischargeIsOneShot | Assets/Scripts/Tests/EditMode/Patient_Flow_Tests.cs:41-43 | a second discharge is always refused and changes nothing |
| PatientProperties.DischargedIsTerminal | Assets/Scripts/Core.Domain/Patients/Patient.cs:46 | a discharged patient begins nothing and cannot be discharged again |
| PatientProperties.CleanListIsFixed | Assets/Scripts/Core.Domain/Patients/Patient.cs:140-143 | a list without missing entries or repeats passes through the cleaning unchanged |
| PatientProperties.FilterOfCleanIsIdentity | Assets/Scripts/Core.Domain/Patients/Patient.cs:133-144 | cleaning is idempotent |
| PatientProperties.NullsAndDuplicatesAreIgnored | Assets/Scripts/Tests/EditMode/Patient_DiagnosisGating_Tests.cs:53-83 | a disease with missing or repeated entries yields the same patient as the same disease with those entries removed |
| ProcedureRun.OnCompleted | Assets/Scripts/Core.Domain/Procedures/ProcedureRun.cs:60-68 | on a live handle it marks the run finished, drops the token, completes the procedure on the patient and then notifies the caller; otherwise it does nothing |
| ProcedureRun.DisposeScheduledToken | Assets/Scripts/Tests/EditMode/ProcedureRun_Equipment_Tests.cs:77-97 | disposing the token of a finished or disposed handle only disposes the token, even if the disposal re-enters the completion |
| ProcedureRun.BindScheduledHandle | Assets/Scripts/Core.Domain/Procedures/ProcedureRun.cs:49-58 | a live handle keeps the token; a finished or disposed one disposes it at once (if there is one) and keeps nothing |
| ProcedureRun.Dispose | Assets/Scripts/Core.Domain/Procedures/ProcedureRun.cs:70-81 | the first disposal's calls are exactly the token disposal, if a token is held, and then one cancel, if the run had not finished; it never completes the procedure or notifies the caller; later disposals do nothing |
| ProcedureRun.Launch | Assets/Scripts/Core.Domain/Procedures/ProcedureRun.cs:26-28 | the new handle remembers whether the caller gave onCompleted; it is live and holds the returned token, unless the context fired during Schedule: then it is finished, and the calls are exactly one CompleteProcedure, onCompleted if given, and the late token's disposal |
| ProcedureRun.EquipmentQuery | Assets/Scripts/Core.Domain/Procedures/ProcedureRun.cs:17-18 | availability is queried once, for the required equipment, and only when there is one |
| ProcedureRun.OpeningOrder | Assets/Scripts/Core.Domain/Procedures/ProcedureRun.cs:17-27 | a successful run's opening calls are the equipment query if any, one TryBeginProcedure, onBegan if given, and Schedule with the procedure's duration, in that order |
| ProcedureRun.OpeningCounts | Assets/Scripts/Core.Domain/Procedures/ProcedureRun.cs:23-27 | the opening asks the patient once, calls onBegan once if given, and schedules once |
| ProcedureRun.OpeningQuiet | Assets/Scripts/Core.Domain/Procedures/ProcedureRun.cs:17-27 | nothing in the opening completes or cancels on the patient, disposes a token or calls onCompleted |
| ProcedureRun.OpeningNoQuery | Assets/Scripts/Core.Domain/Procedures/ProcedureRun.cs:17-18 | a procedure without required equipment never queries availability |
| ProcedureRun.TryRun | Assets/Scripts/Core.Domain/Procedures/ProcedureRun.cs:10-31 | a handle comes back iff the equipment is free and the patient accepts; busy equipment means the patient is never asked and nothing is scheduled; refusal stops right after the patient's answer |
| ProcedureRun.SuccessfulRunShape | Assets/Scripts/Core.Domain/Procedures/ProcedureRun.cs:23-30 | on success all the coordinator's calls come first, only the handle's own calls follow, and the handle will notify onCompleted exactly when the caller gave it |
| ProcedureRun.RunLeftLive | Assets/Scripts/Core.Domain/Procedures/ProcedureRun.cs:26-30 | with a context that does not fire early, the handle is live, holds its token, and the patient has only been asked to begin |
| ProcedureRun.RunFinishedBeforeBind | Assets/Scripts/Core.Domain/Procedures/ProcedureRun.cs:49-56 | when the completion fires inside Schedule, the handle is finished, the late token is disposed and not retained, the patient is completed once and never cancelled, and onCompleted is called once if given and never otherwise |
| ProcedureRun.SuccessfulRunOrder | Assets/Scripts/Core.Domain/Procedures/ProcedureRun.cs:23-28 | on success the patient is asked first, then onBegan if given, then Schedule with the procedure's duration, after at most the equipment query |
| ProcedureRun.SuccessfulRunCalls | Assets/Scripts/Tests/EditMode/ProcedureRun_Equipment_Tests.cs:28-41 | a successful run asks the patient exactly once, calls onBegan once if given, and schedules exactly once with the procedure's duration, whatever the handle does |
| ProcedureRun.CompletionFiresOnce | Assets/Scripts/Core.Domain/Procedures/ProcedureRun.cs:60-62 | a second firing, or a firing after disposal, does nothing |
| ProcedureRun.DisposeIsIdempotent | Assets/Scripts/Core.Domain/Procedures/ProcedureRun.cs:70-72 | disposing twice is disposing once |
| ProcedureRun.ReentrantCompletionIgnored | Assets/Scripts/Core.Domain/Procedures/ProcedureRun.cs:70-81 | when the token's disposal re-enters the completion, the calls are exactly the token disposal then one cancel, and the run does not finish |
| ProcedureRun.OutcomesAreExclusive | Assets/Scripts/Core.Domain/Procedures/ProcedureRun.cs:60-81 | over any sequence of firings and disposals, the patient is completed exactly once iff the run finished and cancelled exactly once iff it was disposed unfinished, so at most one of them ever happens |
| ProcedureRun.QuietOnceFinished | Assets/Scripts/Core.Domain/Procedures/ProcedureRun.cs:60-81 | a finished handle without a token stays finished and never reaches the patient again, whatever firings and disposals follow |
| ProcedureRun.ExclusiveFromTryRun | Assets/Scripts/Core.Domain/Procedures/ProcedureRun.cs:10-81 | for a run as TryRun hands it out, in any context (also one that fires inside Schedule), and over any later firings and disposals, the patient is completed once iff the run finished and cancelled once iff it was disposed unfinished, counting the coordinator's own calls |
| RunWithPatient.ReplayOpening | Assets/Scripts/Core.Domain/Procedures/ProcedureRun.cs:17-27 | replaying a successful run's opening calls on the patient is exactly its TryBeginProcedure |
| RunWithPatient.RunBeginsOnPatient | Assets/Scripts/Core.Domain/Procedures/ProcedureRun.cs:17-30 | against the real patient, a run leaves the patient begun if a handle came back and untouched otherwise, and the invariant holds |
| RunWithPatient.ReplayDispose | Assets/Scripts/Core.Domain/Procedures/ProcedureRun.cs:70-81 | disposing a live run reaches the patient as exactly one cancel |
| RunWithPatient.ReplayCompletion | Assets/Scripts/Core.Domain/Procedures/ProcedureRun.cs:60-68 | the first completion of a live run reaches the patient as exactly one CompleteProcedure |
| RunWithPatient.RunOutcomesOnPatient | Assets/Scripts/Tests/EditMode/Patient_Flow_Tests.cs:84-105 | disposing a run before it completes gives back the patient from before the run, both as written and with the guarded disposal; completing it completes the procedure on the begun patient |
| RunWithPatient.StaleDisposeCancelsOther | Assets/Scripts/Core.Domain/Procedures/ProcedureRun.cs:78-80 | as written, disposing a live handle while the patient has another procedure active cancels that other procedure |
| RunWithPatient.DisposeOwnRunSparesOthers | Assets/Scripts/Core.Domain/Procedures/ProcedureRun.cs:78-80 | the guarded disposal leaves the patient alone whenever the handle's procedure is not the active one |
| RunWithPatient.DisposeOwnRunCancelsOwn | Assets/Scripts/Core.Domain/Procedures/ProcedureRun.cs:70-81 | on a live handle whose procedure is active, the guarded disposal cancels exactly as the disposal as written does |
| Scenarios.Admitted | Assets/Scripts/Tests/EditMode/Patient_Flow_Tests.cs:12-21 | the two-test disease yields a Waiting patient with an unknown diagnosis and two tests |
| Scenarios.TestsReveal | Assets/Scripts/Tests/EditMode/Patient_Flow_Tests.cs:23-35 | after one of two tests the diagnosis is hidden and the treatment refused; after the second the patient is Diagnosed |
| Scenarios.TreatmentRetriedAfterDispose | Assets/Scripts/Tests/EditMode/Patient_Flow_Tests.cs:84-105 | a disposed treatment run puts the patient back to Diagnosed, disposes the token and never completes; the treatment can be begun again, completed and discharged once |
| Scenarios.FullPathway | Assets/Scripts/Tests/EditMode/Patient_Flow_Tests.cs:10-44 | the whole walkthrough from admission to discharge goes through |
| Scenarios.EquipmentGateThenReentrantDispose | Assets/Scripts/Tests/EditMode/ProcedureRun_Equipment_Tests.cs:44-70 | busy equipment never reaches the patient or the scheduler; once it is free the patient is asked once and the run scheduled once, and disposal cancels once and never completes, even when the token's disposal fires the completion |
| Scenarios.NullEntriesIgnored | Assets/Scripts/Tests/EditMode/Patient_DiagnosisGating_Tests.cs:53-68 | missing entries in the arrays are skipped, and the treatment is refused while the tests are open |
| Scenarios.NullEntriesCleaned | Assets/Scripts/Tests/EditMode/Patient_DiagnosisGating_Tests.cs:59-63 | arrays with missing entries clean to the present procedures, in order |
| Scenarios.CancelDuringRun | Assets/Scripts/Tests/EditMode/Procedure_Interruption_Tests.cs:20-31 | a run handed out for a one-test patient leaves it UnderTest, and cancelling its procedure sends it back to Waiting |
| Scenarios.StaleHandleCancelsSecondTest | Assets/Scripts/Tests/EditMode/Procedure_Interruption_Tests.cs:20-31 | after test A's run is cancelled from outside and test B begun, disposing A's handle as written cancels B, while the guarded disposal on the same input leaves the patient as it was, with B active and UnderTest |
| Carry.IsEmpty | Assets/Scripts/Presentation.Views/Carry/CarrySlot.cs:21 | a slot is empty exactly when it is the empty slot |
| Carry.AttachComponent | Assets/Scripts/Presentation.Views/Carry/CarrySlot.cs:130-147 | a component the engine has destroyed is refused; any other becomes the occupant |
| Carry.Attach | Assets/Scripts/Presentation.Views/Carry/CarrySlot.cs:119-128 | attaching succeeds exactly for a present, live component, which becomes the occupant |
| Carry.TryPlace | Assets/Scripts/Presentation.Views/Carry/CarrySlot.cs:43-57 | a full slot refuses and changes nothing; an empty one takes exactly a live component, with one notification naming it |
| Carry.TrySwap | Assets/Scripts/Presentation.Views/Carry/CarrySlot.cs:60-83 | succeeds exactly for a live component, which becomes the occupant with one notification; it reports the displaced occupant, or nothing when the incoming object was already the occupant; a refusal changes nothing |
| Carry.TryTake | Assets/Scripts/Presentation.Views/Carry/CarrySlot.cs:86-104 | succeeds iff the slot was occupied, hands out the occupant, leaves the slot empty and notifies once with no occupant |
| Carry.Clear | Assets/Scripts/Presentation.Views/Carry/CarrySlot.cs:107-117 | always leaves the slot empty and notifies once, even when it was already empty |
| Carry.ChangesAreNotified | Assets/Scripts/Presentation.Views/Carry/CarrySlot.cs:43-168 | every successful place, swap or take, and every clear, notifies exactly once with the new occupant; failures notify nobody |
| Carry.OperationsKeepSlotValid | Assets/Scripts/Presentation.Views/Carry/CarrySlot.cs:119-147 | place, swap, take and clear never attach a destroyed or non-component object |
| Carry.PlaceThenTake | Assets/Scripts/Presentation.Views/Carry/CarrySlot.cs:43-104 | placing an object into an empty slot and taking it out returns that object and the empty slot |
| Carry.TakeThenPlace | Assets/Scripts/Presentation.Views/Carry/CarrySlot.cs:43-104 | taking the occupant out and placing it back restores the slot |
| Carry.SwapIntoEmptyIsPlace | Assets/Scripts/Presentation.Views/Carry/CarrySlot.cs:59-83 | on an empty slot a swap behaves as a place and displaces nothing |
| Carry.SwapBack | Assets/Scripts/Presentation.Views/Carry/CarrySlot.cs:60-83 | swapping a new object in and the displaced one back restores the slot and hands the new object out again |
| Carry.ClearIsIdempotent | Assets/Scripts/Presentation.Views/Carry/CarrySlot.cs:107-117 | clearing twice is clearing once |
| Transporters.HasPatient | Assets/Scripts/Presentation.Views/Inventory/TransporterView.cs:21 | a transporter has a patient exactly when its slot exists and a take from it would succeed |
| Transporters.TryLoadPatient | Assets/Scripts/Presentation.Views/Inventory/TransporterView.cs:25-33 | a missing slot, no patient or a full slot refuses and changes nothing; otherwise a live patient is loaded with one notification |
| Transporters.TryUnloadPatient | Assets/Scripts/Presentation.Views/Inventory/TransporterView.cs:35-56 | succeeds iff a patient is carried, which is handed out, leaving the slot empty; a non-patient occupant is put back (lost if the engine destroyed it) and no patient is handed out |
| Transporters.LoadThenUnload | Assets/Scripts/Presentation.Views/Inventory/TransporterView.cs:25-56 | loading a patient into an empty transporter and unloading returns that patient and the transporter as it was |
| Transporters.UnloadThenLoad | Assets/Scripts/Presentation.Views/Inventory/TransporterView.cs:25-56 | unloading the carried patient and loading it again restores the transporter |
| Transporters.NonPatientStays | Assets/Scripts/Presentation.Views/Inventory/TransporterView.cs:48-53 | an unload attempt leaves a live non-patient occupant where it was |
| StationRegistry.RemoveFirst | Assets/Scripts/Presentation.Input/Staff/ProcedureStationRegistry.cs:36 | removes the first occurrence only, keeping the others in order; an absent station leaves the list alone |
| StationRegistry.Register | Assets/Scripts/Presentation.Input/Staff/ProcedureStationRegistry.cs:19-27 | a missing or already registered station changes nothing; a new one is appended at the end |
| StationRegistry.Unregister | Assets/Scripts/Presentation.Input/Staff/ProcedureStationRegistry.cs:29-37 | removes the station's first occurrence and keeps the order; on a repeat-free list the station is gone entirely and nothing else is |
| StationRegistry.RemoveFirstOfNoDup | Assets/Scripts/Presentation.Input/Staff/ProcedureStationRegistry.cs:36 | in a repeat-free list, removing the first occurrence removes the element altogether and keeps the list repeat-free |
| StationRegistry.RegisterKeepsNoDup | Assets/Scripts/Presentation.Input/Staff/ProcedureStationRegistry.cs:21-26 | registration keeps the list repeat-free and adds exactly the station given |
| StationRegistry.RegisterIsIdempotent | Assets/Scripts/Presentation.Input/Staff/ProcedureStationRegistry.cs:21 | registering twice is registering once |
| StationRegistry.RegisterThenUnregister | Assets/Scripts/Presentation.Input/Staff/ProcedureStationRegistry.cs:19-37 | registering a new station and unregistering it gives back the registry |
| StationRegistry.UnregisterIsIdempotent | Assets/Scripts/Presentation.Input/Staff/ProcedureStationRegistry.cs:29-37 | on a repeat-free list, unregistering twice is unregistering once |
| StationRegistry.UnregisterKeepsOrder | Assets/Scripts/Presentation.Input/Staff/ProcedureStationRegistry.cs:36 | the stations that remain keep their relative order |
| StationRegistry.RegistryNeverRepeats | Assets/Scripts/Presentation.Input/Staff/ProcedureStationRegistry.cs:15-37 | from the empty registry, after any sequence of registrations and unregistrations, the read-only view input agents iterate lists no station twice |

## Left out

- The patient's `Id`: a fresh `Guid` from the clock/random source. It plays no part in the rules.
- The disease's name and `MaxWaitSeconds`, the procedure's name, kind and required tool: carried as data. None of the modelled rules reads them.
- The procedure's duration is a `float` in the game. `TryRun` passes `TimeSpan.FromSeconds` of it to `Schedule`, which rounds it to the millisecond. The model keeps the duration as a `real` and does not model that rounding.
- ProcedureRun.TryRun: `TimeSpan.FromSeconds` throws for a NaN or out-of-range duration. That throw happens after the patient accepted the procedure and `onBegan` ran, so the game is left with an active procedure and no handle. The model does not include this error path; its `Schedule` always succeeds.
- Time itself: the scheduler's timer, the `TimeSpan` conversion and the cancellation token of `Schedule`. The scheduler is a `ProcedureRun.Context` whose behaviour is fixed per run.
- ProcedureRun.TryRun: a null procedure makes the game throw a `NullReferenceException` on its first line. The model takes the procedure as always present.
- ProcedureRun.TryRun: the patient is a parameter (its answer to `TryBeginProcedure`) rather than a call. `RunWithPatient` composes it with the real patient, for contexts that do not fire the completion inside `Schedule`.
- ProcedureRun.Dispose: a context that answers differently on different calls, or fires the completion at some other moment, is not modelled. Firing from a timer is the `Fire` operation of `ProcedureRun.OutcomesAreExclusive`.
- The `onBegan` and `onCompleted` callbacks are recorded as events. What they do is code outside this model.
- Listeners of `OccupantChanged`: the notifications are a returned sequence. Subscribing and what subscribers do are not modelled.
- CarrySlot scene work: the anchor, transform parenting, local position and rotation, `Awake` and `RefreshFromAnchor` (which captures an existing child at scene load). These are engine calls with no rule beyond who occupies the slot.
- Destroying an occupant in place: the game can destroy a carried object without taking it out of its slot (the patient's object is destroyed at discharge in `Assets/Scripts/Presentation.Views/Patients/PatientSequenceController.cs:533`, and only the seat is cleared at line 537 of the same file). Such a slot keeps a destroyed occupant. The model has no operation that destroys objects, so `Carry.OperationsKeepSlotValid` speaks only of what the slot's own operations attach.
- The engine's destroyed-object null check is modelled only through the `destroyed` flag of a `Carryable` (at `AttachComponent`) and through a missing slot (`Option`) in TransporterView.
- Carry.TrySwap: the game decides "nothing displaced" by reference identity. The model compares `Carryable` values, each of which stands for one scene object.
- Transporters.TryLoadPatient: the argument is typed as a patient carryable in the game. Here the `isPatient` flag carries that type, so the precondition only restates the parameter's type.
- The registry is a static list shared by the scene. Here it is a value passed in and returned. `Stations` is the read-only view of that list and has no rule of its own; `StationRegistry.RegistryNeverRepeats` states that it never lists a station twice.
- TransporterView's transporter asset, speed modifier and display name: presentation data with no rule.
- Patients.TryResolveCandidate: the game skips missing candidates. The lists it searches are always cleaned first, so the model searches lists that have no missing entries.
- Patients.TryBeginProcedure: a procedure listed both as a test and as a treatment is only ever treated as a test, as in the game. This is stated in its contract, not changed.
- Everything else in the repository: the UI, animation, hand and staff agents, the icon providers and the service locator. They are callers of this core, not part of it.

## Findings

| source | as written | input that shows it | evidently intended | confidence | as-written member | corrected member |
|---|---|---|---|---|---|---|
| Assets/Scripts/Core.Domain/Procedures/ProcedureRun.cs:78-80 | a handle disposed before finishing calls `CancelActiveProcedure()`, which cancels whatever procedure the patient has active | test A is run and its handle kept; the patient's procedure is cancelled directly (as in `Procedure_Interruption_Tests.cs:20-31`); test B is begun; disposing A's handle then cancels B | cancel only while the run's own procedure is the active one, the guard `CompleteProcedure` already applies to completion | medium, not executed | RunWithPatient.StaleDisposeCancelsOther, Scenarios.StaleHandleCancelsSecondTest | RunWithPatient.DisposeOwnRun, with RunWithPatient.DisposeOwnRunSparesOthers and RunWithPatient.DisposeOwnRunCancelsOwn |
