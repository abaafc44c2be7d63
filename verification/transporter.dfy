/**
  A transporter (a gurney, say) that carries one patient in a carry slot.
  The slot reference may be missing, as an unassigned scene field.
*/
module Transporters {
  import opened Wrappers
  import opened Carry

  datatype Transporter = Transporter(patientSlot: Option<CarrySlot>)

  datatype LoadStep = LoadStep(ok: bool, transporter: Transporter, events: seq<OccupantChanged>)
  datatype UnloadStep = UnloadStep(ok: bool, patient: Option<Carryable>, transporter: Transporter, events: seq<OccupantChanged>)

  /** Something to take out: the slot exists and a take from it would succeed. */
  function HasPatient(t: Transporter): (b: bool)
    ensures b <==> t.patientSlot.Some? && TryTake(t.patientSlot.value).ok
    ensures b ==> t.patientSlot.value != Empty
  {
    t.patientSlot.Some? && !IsEmpty(t.patientSlot.value)
  }

  /** The loading argument is typed as a patient carryable in the game. */
  predicate PatientOrNull(c: Option<Carryable>)
  {
    c.Some? ==> c.value.isPatient
  }

  /** Loads a patient into an empty slot. */
  function TryLoadPatient(t: Transporter, patient: Option<Carryable>): (r: LoadStep)
    requires PatientOrNull(patient)
    ensures t.patientSlot.None? || patient.None? || HasPatient(t) ==> r == LoadStep(false, t, [])
    ensures r.ok <==> t.patientSlot.Some? && IsEmpty(t.patientSlot.value) && patient.Some? && Attachable(patient.value)
    ensures !r.ok ==> r.transporter == t && r.events == []
    ensures r.ok ==> r.transporter.patientSlot == Some(CarrySlot(patient)) && HasPatient(r.transporter)
    ensures r.ok ==> r.events == [OccupantChanged(patient)]
  {
    if t.patientSlot.None? || patient.None? || !IsEmpty(t.patientSlot.value) then LoadStep(false, t, [])
    else
      var swapped := TrySwap(t.patientSlot.value, patient);
      LoadStep(swapped.ok, t.(patientSlot := Some(swapped.slot)), swapped.events)
  }

  /**
    Unloads the patient. An occupant that is not a patient is put back and
    the unload refused; if the engine destroyed that occupant meanwhile, the
    put-back is refused too and the slot is left empty.
  */
  function TryUnloadPatient(t: Transporter): (r: UnloadStep)
    ensures !HasPatient(t) ==> r == UnloadStep(false, None, t, [])
    ensures r.ok <==> HasPatient(t) && t.patientSlot.value.current.value.isPatient
    ensures r.ok ==> r.patient == t.patientSlot.value.current && r.transporter.patientSlot == Some(Empty)
    ensures r.ok ==> r.events == [OccupantChanged(None)]
    ensures !r.ok ==> r.patient.None?
    ensures HasPatient(t) && !t.patientSlot.value.current.value.isPatient ==>
      var c := t.patientSlot.value.current.value;
      && r.transporter.patientSlot == Some(if Attachable(c) then CarrySlot(Some(c)) else Empty)
      && r.events == [OccupantChanged(None)] + (if Attachable(c) then [OccupantChanged(Some(c))] else [])
  {
    if t.patientSlot.None? || IsEmpty(t.patientSlot.value) then UnloadStep(false, None, t, [])
    else
      var taken := TryTake(t.patientSlot.value);
      if !taken.ok then UnloadStep(false, None, t, [])
      else
        var carryable := taken.taken.value;
        if !carryable.isPatient then
          var back := TrySwap(taken.slot, Some(carryable));
          UnloadStep(false, None, t.(patientSlot := Some(back.slot)), taken.events + back.events)
        else UnloadStep(true, Some(carryable), t.(patientSlot := Some(taken.slot)), taken.events)
  }

  // ---------------------------------------------------------------------------
  // Properties
  // ---------------------------------------------------------------------------

  /** A patient loaded into an empty transporter is unloaded again, leaving the transporter as it was. */
  lemma LoadThenUnload(t: Transporter, patient: Carryable)
    requires t.patientSlot.Some? && !HasPatient(t)
    requires patient.isPatient && Attachable(patient)
    ensures TryLoadPatient(t, Some(patient)).ok
    ensures var u := TryUnloadPatient(TryLoadPatient(t, Some(patient)).transporter);
      u.ok && u.patient == Some(patient) && u.transporter == t
  {
  }

  /** Unloading a carried patient and loading it again restores the transporter. */
  lemma UnloadThenLoad(t: Transporter)
    requires HasPatient(t) && SlotValid(t.patientSlot.value)
    requires t.patientSlot.value.current.value.isPatient
    ensures var u := TryUnloadPatient(t);
      u.ok && TryLoadPatient(u.transporter, u.patient).ok && TryLoadPatient(u.transporter, u.patient).transporter == t
  {
  }

  /** A live non-patient occupant survives an unload attempt untouched. */
  lemma NonPatientStays(t: Transporter)
    requires HasPatient(t) && SlotValid(t.patientSlot.value)
    requires !t.patientSlot.value.current.value.isPatient
    ensures !TryUnloadPatient(t).ok && TryUnloadPatient(t).transporter == t
  {
  }
}
