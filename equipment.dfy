/** The equipment store (src/store/equipmentStore.ts): the office equipment inventory.
    Records arrive complete from the caller; the store assigns no id and
    no creation time. */
module EquipmentInventory {
  import opened Wrappers
  import opened Types
  import Seqs

  /** A piece of equipment.  The fields the store reads are typed; the others
      (name, type, serial number, condition, status, purchase date and notes)
      are kept by name in `details`. */
  datatype Equipment = Equipment(
    id: Id, assignedTo: Option<Id>, createdAt: Time, updatedAt: Time, details: map<string, string>)

  /** `Partial<Equipment>`: the typed fields it sets, and the other fields it
      sets in `details`. */
  datatype EquipmentPatch = EquipmentPatch(
    id: Change<Id>, assignedTo: Change<Option<Id>>, createdAt: Change<Time>, updatedAt: Change<Time>, details: map<string, string>)

  const NoEquipmentChange := EquipmentPatch(Keep, Keep, Keep, Keep, map[])

  /** `{ ...e, ...updates }`: a field the update sets wins. */
  function MergeEquipment(e: Equipment, u: EquipmentPatch): Equipment {
    Equipment(u.id.ApplyTo(e.id),
              u.assignedTo.ApplyTo(e.assignedTo),
              u.createdAt.ApplyTo(e.createdAt),
              u.updatedAt.ApplyTo(e.updatedAt),
              e.details + u.details)
  }

  /** Merging the same update twice is merging it once. */
  lemma MergeTwice(e: Equipment, u: EquipmentPatch)
    ensures MergeEquipment(MergeEquipment(e, u), u) == MergeEquipment(e, u)
  {
    assert (e.details + u.details) + u.details == e.details + u.details;
  }

  /** What `initializeEquipment` loads: the demo records when storage is
      empty, the stored list otherwise. */
  function InitialEquipment(stored: seq<Equipment>, demo: seq<Equipment>): (r: seq<Equipment>)
    ensures stored == [] ==> r == demo
    ensures stored != [] ==> r == stored
  {
    if |stored| == 0 then demo else stored
  }

  /** One matching record after `updateEquipment`: merged, then stamped. */
  function Stamped(e: Equipment, u: EquipmentPatch, now: Time): Equipment {
    MergeEquipment(e, u).(updatedAt := now)
  }

  /** The list after `updateEquipment(id, updates)`: every record with that id
      merged and its `updatedAt` refreshed; the others untouched. */
  function UpdatedEquipment(equipment: seq<Equipment>, id: Id, u: EquipmentPatch, now: Time): (r: seq<Equipment>)
    ensures |r| == |equipment|
    ensures forall k :: 0 <= k < |r| && equipment[k].id == id ==> r[k] == Stamped(equipment[k], u, now)
    ensures forall k :: 0 <= k < |r| && equipment[k].id != id ==> r[k] == equipment[k]
    ensures (forall e :: e in equipment ==> e.id != id) ==> r == equipment
  {
    Seqs.MapWhere(equipment, (e: Equipment) => e.id == id, (e: Equipment) => Stamped(e, u, now))
  }

  /** The list after `deleteEquipment(id)`: every record with that id removed,
      the rest in order. */
  function DeletedEquipment(equipment: seq<Equipment>, id: Id): (r: seq<Equipment>)
    ensures forall e :: e in r <==> e in equipment && e.id != id
    ensures Seqs.IsFilterOf(r, equipment, (e: Equipment) => e.id != id)
  {
    Seqs.FilterIsFilterOf(equipment, (e: Equipment) => e.id != id);
    Seqs.Filter(equipment, (e: Equipment) => e.id != id)
  }

  /** `getEquipmentById(id)`: the first record with that id. */
  function GetEquipmentById(equipment: seq<Equipment>, id: Id): (r: Option<Equipment>)
    ensures r.None? <==> forall e :: e in equipment ==> e.id != id
    ensures r.Some? ==> r.value in equipment && r.value.id == id
    ensures r.Some? ==> r.value == equipment[Seqs.FirstIndex(equipment, (e: Equipment) => e.id == id)]
  {
    Seqs.Find(equipment, (e: Equipment) => e.id == id)
  }

  /** `getEquipmentByAgent(agentId)`: the records whose `assignedTo` is that id, in
      stored order; a record with no `assignedTo` is in nobody's list. */
  function GetEquipmentByAgent(equipment: seq<Equipment>, agentId: Id): (r: seq<Equipment>)
    ensures forall e :: e in r <==> e in equipment && e.assignedTo == Some(agentId)
    ensures forall e :: e in r ==> e.assignedTo.Some?
    ensures Seqs.IsFilterOf(r, equipment, (e: Equipment) => e.assignedTo == Some(agentId))
  {
    Seqs.FilterIsFilterOf(equipment, (e: Equipment) => e.assignedTo == Some(agentId));
    Seqs.Filter(equipment, (e: Equipment) => e.assignedTo == Some(agentId))
  }

  /** `addEquipment` checks no id: looking the new record's id up finds it only
      when no earlier record has that id. */
  lemma AddedEquipmentFound(equipment: seq<Equipment>, e: Equipment)
    ensures GetEquipmentById(equipment + [e], e.id) ==
            if GetEquipmentById(equipment, e.id).Some? then GetEquipmentById(equipment, e.id) else Some(e)
  {
    Seqs.FindAppend(equipment, e, (y: Equipment) => y.id == e.id);
  }

  /** After `deleteEquipment(id)` the id is gone, and the list is shorter by
      exactly the number of records that carried it. */
  lemma DeletedEquipmentGone(equipment: seq<Equipment>, id: Id)
    ensures GetEquipmentById(DeletedEquipment(equipment, id), id).None?
    ensures |DeletedEquipment(equipment, id)| == |equipment| - Seqs.Count(equipment, (e: Equipment) => e.id == id)
  {
    Seqs.FilterLength(equipment, (e: Equipment) => e.id != id);
    Seqs.CountComplement(equipment, (e: Equipment) => e.id == id, (e: Equipment) => e.id != id);
  }

  /** Repeating an update (at the same time) changes nothing more. */
  lemma UpdateEquipmentIdempotent(equipment: seq<Equipment>, id: Id, u: EquipmentPatch, now: Time)
    ensures UpdatedEquipment(UpdatedEquipment(equipment, id, u, now), id, u, now) == UpdatedEquipment(equipment, id, u, now)
  {
    var once := UpdatedEquipment(equipment, id, u, now);
    var twice := UpdatedEquipment(once, id, u, now);
    forall k | 0 <= k < |equipment| ensures twice[k] == once[k] {
      if equipment[k].id == id {
        MergeTwice(equipment[k], u);
      }
    }
  }

  /** An empty update still refreshes `updatedAt` of the matching records,
      and touches nothing else. */
  lemma EmptyUpdateEquipmentStamps(equipment: seq<Equipment>, id: Id, now: Time)
    ensures var r := UpdatedEquipment(equipment, id, NoEquipmentChange, now);
      |r| == |equipment| &&
      (forall k :: 0 <= k < |r| && equipment[k].id == id ==> r[k] == equipment[k].(updatedAt := now)) &&
      (forall k :: 0 <= k < |r| && equipment[k].id != id ==> r[k] == equipment[k])
  {
    var r := UpdatedEquipment(equipment, id, NoEquipmentChange, now);
    forall k | 0 <= k < |r| && equipment[k].id == id ensures r[k] == equipment[k].(updatedAt := now) {
      assert equipment[k].details + map[] == equipment[k].details;
    }
  }

  class EquipmentStore {
    var equipment: seq<Equipment>
    /** The copy under the equipment storage key. */
    ghost var persisted: seq<Equipment>

    ghost predicate Valid()
      reads this
    {
      persisted == equipment
    }

    constructor ()
      ensures equipment == [] && Valid()
    {
      equipment := [];
      persisted := [];
    }

    /** `initializeEquipment`: seeds storage with the demo records when it is empty. */
    method InitializeEquipment(stored: seq<Equipment>, demo: seq<Equipment>)
      modifies this
      ensures equipment == InitialEquipment(stored, demo) && Valid()
    {
      if |stored| == 0 {
        persisted := demo;
        equipment := demo;
      } else {
        equipment := stored;
        persisted := stored;
      }
    }

    /** `loadEquipment`: takes whatever storage holds, even an empty list, and
        never seeds. */
    method LoadEquipment(stored: seq<Equipment>)
      modifies this
      ensures equipment == stored && Valid()
    {
      equipment := stored;
      persisted := stored;
    }

    /** `addEquipment`: appends the caller's record unchanged. */
    method AddEquipment(e: Equipment)
      requires Valid()
      modifies this
      ensures equipment == old(equipment) + [e] && Valid()
    {
      equipment := equipment + [e];
      persisted := equipment;
    }

    method UpdateEquipment(id: Id, u: EquipmentPatch, now: Time)
      requires Valid()
      modifies this
      ensures equipment == UpdatedEquipment(old(equipment), id, u, now) && Valid()
    {
      equipment := UpdatedEquipment(equipment, id, u, now);
      persisted := equipment;
    }

    method DeleteEquipment(id: Id)
      requires Valid()
      modifies this
      ensures equipment == DeletedEquipment(old(equipment), id) && Valid()
    {
      equipment := DeletedEquipment(equipment, id);
      persisted := equipment;
    }
  }
}
