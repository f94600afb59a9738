/** The vehicle store (src/store/vehicleStore.ts): the company vehicles.
    Records arrive complete from the caller; the store assigns no id and
    no creation time. */
module Vehicles {
  import opened Wrappers
  import opened Types
  import Seqs

  /** A vehicle.  The fields the store reads are typed; the others
      (make, model, plate number, status and the service dates)
      are kept by name in `details`. */
  datatype Vehicle = Vehicle(
    id: Id, assignedTo: Option<Id>, createdAt: Time, updatedAt: Time, details: map<string, string>)

  /** `Partial<Vehicle>`: the typed fields it sets, and the other fields it
      sets in `details`. */
  datatype VehiclePatch = VehiclePatch(
    id: Change<Id>, assignedTo: Change<Option<Id>>, createdAt: Change<Time>, updatedAt: Change<Time>, details: map<string, string>)

  const NoVehicleChange := VehiclePatch(Keep, Keep, Keep, Keep, map[])

  /** `{ ...v, ...updates }`: a field the update sets wins. */
  function MergeVehicle(v: Vehicle, u: VehiclePatch): Vehicle {
    Vehicle(u.id.ApplyTo(v.id),
            u.assignedTo.ApplyTo(v.assignedTo),
            u.createdAt.ApplyTo(v.createdAt),
            u.updatedAt.ApplyTo(v.updatedAt),
            v.details + u.details)
  }

  /** Merging the same update twice is merging it once. */
  lemma MergeTwice(v: Vehicle, u: VehiclePatch)
    ensures MergeVehicle(MergeVehicle(v, u), u) == MergeVehicle(v, u)
  {
    assert (v.details + u.details) + u.details == v.details + u.details;
  }

  /** What `initializeVehicles` loads: the demo records when storage is
      empty, the stored list otherwise. */
  function InitialVehicles(stored: seq<Vehicle>, demo: seq<Vehicle>): (r: seq<Vehicle>)
    ensures stored == [] ==> r == demo
    ensures stored != [] ==> r == stored
  {
    if |stored| == 0 then demo else stored
  }

  /** One matching record after `updateVehicle`: merged, then stamped. */
  function Stamped(v: Vehicle, u: VehiclePatch, now: Time): Vehicle {
    MergeVehicle(v, u).(updatedAt := now)
  }

  /** The list after `updateVehicle(id, updates)`: every record with that id
      merged and its `updatedAt` refreshed; the others untouched. */
  function UpdatedVehicles(vehicles: seq<Vehicle>, id: Id, u: VehiclePatch, now: Time): (r: seq<Vehicle>)
    ensures |r| == |vehicles|
    ensures forall k :: 0 <= k < |r| && vehicles[k].id == id ==> r[k] == Stamped(vehicles[k], u, now)
    ensures forall k :: 0 <= k < |r| && vehicles[k].id != id ==> r[k] == vehicles[k]
    ensures (forall v :: v in vehicles ==> v.id != id) ==> r == vehicles
  {
    Seqs.MapWhere(vehicles, (v: Vehicle) => v.id == id, (v: Vehicle) => Stamped(v, u, now))
  }

  /** The list after `deleteVehicle(id)`: every record with that id removed,
      the rest in order. */
  function DeletedVehicles(vehicles: seq<Vehicle>, id: Id): (r: seq<Vehicle>)
    ensures forall v :: v in r <==> v in vehicles && v.id != id
    ensures Seqs.IsFilterOf(r, vehicles, (v: Vehicle) => v.id != id)
  {
    Seqs.FilterIsFilterOf(vehicles, (v: Vehicle) => v.id != id);
    Seqs.Filter(vehicles, (v: Vehicle) => v.id != id)
  }

  /** `getVehicleById(id)`: the first record with that id. */
  function GetVehicleById(vehicles: seq<Vehicle>, id: Id): (r: Option<Vehicle>)
    ensures r.None? <==> forall v :: v in vehicles ==> v.id != id
    ensures r.Some? ==> r.value in vehicles && r.value.id == id
    ensures r.Some? ==> r.value == vehicles[Seqs.FirstIndex(vehicles, (v: Vehicle) => v.id == id)]
  {
    Seqs.Find(vehicles, (v: Vehicle) => v.id == id)
  }

  /** `getVehiclesByAgent(agentId)`: the records whose `assignedTo` is that id, in
      stored order; a record with no `assignedTo` is in nobody's list. */
  function GetVehiclesByAgent(vehicles: seq<Vehicle>, agentId: Id): (r: seq<Vehicle>)
    ensures forall v :: v in r <==> v in vehicles && v.assignedTo == Some(agentId)
    ensures forall v :: v in r ==> v.assignedTo.Some?
    ensures Seqs.IsFilterOf(r, vehicles, (v: Vehicle) => v.assignedTo == Some(agentId))
  {
    Seqs.FilterIsFilterOf(vehicles, (v: Vehicle) => v.assignedTo == Some(agentId));
    Seqs.Filter(vehicles, (v: Vehicle) => v.assignedTo == Some(agentId))
  }

  /** `addVehicle` checks no id: looking the new record's id up finds it only
      when no earlier record has that id. */
  lemma AddedVehicleFound(vehicles: seq<Vehicle>, v: Vehicle)
    ensures GetVehicleById(vehicles + [v], v.id) ==
            if GetVehicleById(vehicles, v.id).Some? then GetVehicleById(vehicles, v.id) else Some(v)
  {
    Seqs.FindAppend(vehicles, v, (y: Vehicle) => y.id == v.id);
  }

  /** After `deleteVehicle(id)` the id is gone, and the list is shorter by
      exactly the number of records that carried it. */
  lemma DeletedVehicleGone(vehicles: seq<Vehicle>, id: Id)
    ensures GetVehicleById(DeletedVehicles(vehicles, id), id).None?
    ensures |DeletedVehicles(vehicles, id)| == |vehicles| - Seqs.Count(vehicles, (v: Vehicle) => v.id == id)
  {
    Seqs.FilterLength(vehicles, (v: Vehicle) => v.id != id);
    Seqs.CountComplement(vehicles, (v: Vehicle) => v.id == id, (v: Vehicle) => v.id != id);
  }

  /** Repeating an update (at the same time) changes nothing more. */
  lemma UpdateVehicleIdempotent(vehicles: seq<Vehicle>, id: Id, u: VehiclePatch, now: Time)
    ensures UpdatedVehicles(UpdatedVehicles(vehicles, id, u, now), id, u, now) == UpdatedVehicles(vehicles, id, u, now)
  {
    var once := UpdatedVehicles(vehicles, id, u, now);
    var twice := UpdatedVehicles(once, id, u, now);
    forall k | 0 <= k < |vehicles| ensures twice[k] == once[k] {
      if vehicles[k].id == id {
        MergeTwice(vehicles[k], u);
      }
    }
  }

  /** An empty update still refreshes `updatedAt` of the matching records,
      and touches nothing else. */
  lemma EmptyUpdateVehicleStamps(vehicles: seq<Vehicle>, id: Id, now: Time)
    ensures var r := UpdatedVehicles(vehicles, id, NoVehicleChange, now);
      |r| == |vehicles| &&
      (forall k :: 0 <= k < |r| && vehicles[k].id == id ==> r[k] == vehicles[k].(updatedAt := now)) &&
      (forall k :: 0 <= k < |r| && vehicles[k].id != id ==> r[k] == vehicles[k])
  {
    var r := UpdatedVehicles(vehicles, id, NoVehicleChange, now);
    forall k | 0 <= k < |r| && vehicles[k].id == id ensures r[k] == vehicles[k].(updatedAt := now) {
      assert vehicles[k].details + map[] == vehicles[k].details;
    }
  }

  class VehicleStore {
    var vehicles: seq<Vehicle>
    /** The copy under the vehicles storage key. */
    ghost var persisted: seq<Vehicle>

    ghost predicate Valid()
      reads this
    {
      persisted == vehicles
    }

    constructor ()
      ensures vehicles == [] && Valid()
    {
      vehicles := [];
      persisted := [];
    }

    /** `initializeVehicles`: seeds storage with the demo records when it is empty. */
    method InitializeVehicles(stored: seq<Vehicle>, demo: seq<Vehicle>)
      modifies this
      ensures vehicles == InitialVehicles(stored, demo) && Valid()
    {
      if |stored| == 0 {
        persisted := demo;
        vehicles := demo;
      } else {
        vehicles := stored;
        persisted := stored;
      }
    }

    /** `loadVehicles`: takes whatever storage holds, even an empty list, and
        never seeds. */
    method LoadVehicles(stored: seq<Vehicle>)
      modifies this
      ensures vehicles == stored && Valid()
    {
      vehicles := stored;
      persisted := stored;
    }

    /** `addVehicle`: appends the caller's record unchanged. */
    method AddVehicle(v: Vehicle)
      requires Valid()
      modifies this
      ensures vehicles == old(vehicles) + [v] && Valid()
    {
      vehicles := vehicles + [v];
      persisted := vehicles;
    }

    method UpdateVehicle(id: Id, u: VehiclePatch, now: Time)
      requires Valid()
      modifies this
      ensures vehicles == UpdatedVehicles(old(vehicles), id, u, now) && Valid()
    {
      vehicles := UpdatedVehicles(vehicles, id, u, now);
      persisted := vehicles;
    }

    method DeleteVehicle(id: Id)
      requires Valid()
      modifies this
      ensures vehicles == DeletedVehicles(old(vehicles), id) && Valid()
    {
      vehicles := DeletedVehicles(vehicles, id);
      persisted := vehicles;
    }
  }
}
