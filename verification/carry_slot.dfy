/**
  A single-occupant carry slot. Scene parenting (moving the occupant's
  transform under the slot's anchor and releasing it again) is abstracted
  away; what remains is who occupies the slot and the OccupantChanged
  notifications raised.
*/
module Carry {
  import opened Wrappers

  /**
    Something that can be carried. `isComponent`: it is a component of a
    scene object (only those can be parented to a slot); `destroyed`: the
    engine has destroyed that object, so engine null checks treat it as
    missing; `isPatient`: it represents a patient.
  */
  datatype Carryable = Carryable(id: nat, isComponent: bool, destroyed: bool, isPatient: bool)

  datatype CarrySlot = CarrySlot(current: Option<Carryable>)

  /** One OccupantChanged notification, carrying the occupant after the change. */
  datatype OccupantChanged = OccupantChanged(occupant: Option<Carryable>)

  datatype PlaceStep = PlaceStep(ok: bool, slot: CarrySlot, events: seq<OccupantChanged>)
  datatype SwapStep = SwapStep(ok: bool, removed: Option<Carryable>, slot: CarrySlot, events: seq<OccupantChanged>)
  datatype TakeStep = TakeStep(ok: bool, taken: Option<Carryable>, slot: CarrySlot, events: seq<OccupantChanged>)
  datatype ClearStep = ClearStep(slot: CarrySlot, events: seq<OccupantChanged>)

  const Empty := CarrySlot(None)

  /** The slot holds nothing: it is the empty slot. */
  function IsEmpty(s: CarrySlot): (b: bool)
    ensures b <==> s == Empty
  {
    s.current.None?
  }

  /** What the slot can hold: a live component. */
  predicate Attachable(c: Carryable)
  {
    c.isComponent && !c.destroyed
  }

  /** Every occupant got there by being attached. */
  predicate SlotValid(s: CarrySlot)
  {
    s.current.Some? ==> Attachable(s.current.value)
  }

  /** The notification raised after a change: the slot's occupant at that moment. */
  function RaiseOccupantChanged(s: CarrySlot): seq<OccupantChanged>
  {
    [OccupantChanged(s.current)]
  }

  /** Parents a component to the slot; refused when the engine has destroyed it. */
  function AttachComponent(s: CarrySlot, c: Carryable): (r: Option<CarrySlot>)
    requires c.isComponent
    ensures r.Some? <==> !c.destroyed
    ensures r.Some? ==> r.value.current == Some(c)
  {
    if c.destroyed then None else Some(s.(current := Some(c)))
  }

  function Attach(s: CarrySlot, c: Option<Carryable>): (r: Option<CarrySlot>)
    ensures r.Some? <==> c.Some? && Attachable(c.value)
    ensures r.Some? ==> r.value.current == c
  {
    if c.None? then None
    else if c.value.isComponent then AttachComponent(s, c.value)
    else None
  }

  /** Places an item into the slot, only when the slot is empty. */
  function TryPlace(s: CarrySlot, c: Option<Carryable>): (r: PlaceStep)
    ensures !IsEmpty(s) ==> r == PlaceStep(false, s, [])
    ensures IsEmpty(s) ==> (r.ok <==> c.Some? && Attachable(c.value))
    ensures !r.ok ==> r.slot == s && r.events == []
    ensures r.ok ==> r.slot.current == c && r.events == [OccupantChanged(c)]
  {
    if !IsEmpty(s) then PlaceStep(false, s, [])
    else
      match Attach(s, c)
      case None => PlaceStep(false, s, [])
      case Some(placed) => PlaceStep(true, placed, RaiseOccupantChanged(placed))
  }

  /**
    Puts an item into the slot whatever it holds, reporting the item it
    displaced; re-inserting the current occupant displaces nothing.
  */
  function TrySwap(s: CarrySlot, incoming: Option<Carryable>): (r: SwapStep)
    ensures r.ok <==> incoming.Some? && Attachable(incoming.value)
    ensures !r.ok ==> r.slot == s && r.removed.None? && r.events == []
    ensures r.ok ==> r.slot.current == incoming && r.events == [OccupantChanged(incoming)]
    ensures r.ok ==> r.removed == (if s.current == incoming then None else s.current)
  {
    if incoming.None? then SwapStep(false, None, s, [])
    else if !incoming.value.isComponent then SwapStep(false, None, s, [])
    else
      var previous := s.current;
      match AttachComponent(s, incoming.value)
      case None => SwapStep(false, None, s, [])
      case Some(swapped) =>
        SwapStep(true, if previous == incoming then None else previous, swapped, RaiseOccupantChanged(swapped))
  }

  /** Takes the occupant out of the slot. */
  function TryTake(s: CarrySlot): (r: TakeStep)
    ensures r.ok <==> !IsEmpty(s)
    ensures r.taken == s.current
    ensures IsEmpty(r.slot)
    ensures r.events == (if r.ok then [OccupantChanged(None)] else [])
  {
    if s.current.None? then TakeStep(false, None, s, [])
    else TakeStep(true, s.current, Empty, RaiseOccupantChanged(Empty))
  }

  /** Forgets the occupant, raising the notification even when there was none. */
  function Clear(s: CarrySlot): (r: ClearStep)
    ensures IsEmpty(r.slot)
    ensures r.events == [OccupantChanged(None)]
  {
    ClearStep(Empty, RaiseOccupantChanged(Empty))
  }

  // ---------------------------------------------------------------------------
  // Properties
  // ---------------------------------------------------------------------------

  /** Exactly one notification, naming the occupant the slot now has. */
  predicate NotifiedOnce(events: seq<OccupantChanged>, after: CarrySlot)
  {
    |events| == 1 && events[0].occupant == after.current
  }

  /** Every successful place, swap or take, and every clear, notifies once with the new occupant; failures notify nobody. */
  lemma ChangesAreNotified(s: CarrySlot, c: Option<Carryable>)
    ensures var r := TryPlace(s, c); if r.ok then NotifiedOnce(r.events, r.slot) else r.events == []
    ensures var r := TrySwap(s, c); if r.ok then NotifiedOnce(r.events, r.slot) else r.events == []
    ensures var r := TryTake(s); if r.ok then NotifiedOnce(r.events, r.slot) else r.events == []
    ensures NotifiedOnce(Clear(s).events, Clear(s).slot)
  {
  }

  /** The slot only ever holds live components. */
  lemma OperationsKeepSlotValid(s: CarrySlot, c: Option<Carryable>)
    requires SlotValid(s)
    ensures SlotValid(TryPlace(s, c).slot)
    ensures SlotValid(TrySwap(s, c).slot)
    ensures SlotValid(TryTake(s).slot)
    ensures SlotValid(Clear(s).slot)
  {
  }

  /** Placing an item and taking it out again gives the item back and an empty slot. */
  lemma PlaceThenTake(s: CarrySlot, c: Carryable)
    requires IsEmpty(s) && Attachable(c)
    ensures TryPlace(s, Some(c)).ok
    ensures var t := TryTake(TryPlace(s, Some(c)).slot);
      t.ok && t.taken == Some(c) && t.slot == s
  {
  }

  /** Taking the occupant out and placing it back restores the slot. */
  lemma TakeThenPlace(s: CarrySlot)
    requires SlotValid(s) && !IsEmpty(s)
    ensures var t := TryTake(s);
      TryPlace(t.slot, t.taken).ok && TryPlace(t.slot, t.taken).slot == s
  {
  }

  /** On an empty slot a swap is a place that displaces nothing. */
  lemma SwapIntoEmptyIsPlace(s: CarrySlot, c: Option<Carryable>)
    requires IsEmpty(s)
    ensures var w := TrySwap(s, c); var p := TryPlace(s, c);
      w.ok == p.ok && w.slot == p.slot && w.events == p.events && w.removed.None?
  {
  }

  /** Swapping an item in and then swapping the displaced item back restores the slot. */
  lemma SwapBack(s: CarrySlot, c: Carryable)
    requires SlotValid(s) && !IsEmpty(s) && Attachable(c) && s.current != Some(c)
    ensures var w := TrySwap(s, Some(c));
      && w.ok && w.removed == s.current
      && var back := TrySwap(w.slot, w.removed);
      && back.ok && back.slot == s && back.removed == Some(c)
  {
  }

  /** Clearing twice is clearing once. */
  lemma ClearIsIdempotent(s: CarrySlot)
    ensures Clear(Clear(s).slot).slot == Clear(s).slot
  {
  }
}
