/** The maintenance request store (src/store/maintenanceStore.ts): the maintenance requests customers file for their properties.
    Records arrive complete from the caller; the store assigns no id and
    no creation time. */
module MaintenanceRequests {
  import opened Wrappers
  import opened Types
  import Seqs

  /** A maintenance request.  The fields the store reads are typed; the others
      (title, description, category, priority, status and the scheduling dates)
      are kept by name in `details`. */
  datatype MaintenanceRequest = MaintenanceRequest(
    id: Id, customerId: Id, agentId: Id, propertyId: Id, createdAt: Time, updatedAt: Time, details: map<string, string>)

  /** `Partial<MaintenanceRequest>`: the typed fields it sets, and the other fields it
      sets in `details`. */
  datatype RequestPatch = RequestPatch(
    id: Change<Id>, customerId: Change<Id>, agentId: Change<Id>, propertyId: Change<Id>, createdAt: Change<Time>, updatedAt: Change<Time>, details: map<string, string>)

  const NoRequestChange := RequestPatch(Keep, Keep, Keep, Keep, Keep, Keep, map[])

  /** `{ ...m, ...updates }`: a field the update sets wins. */
  function MergeRequest(m: MaintenanceRequest, u: RequestPatch): MaintenanceRequest {
    MaintenanceRequest(u.id.ApplyTo(m.id),
                       u.customerId.ApplyTo(m.customerId),
                       u.agentId.ApplyTo(m.agentId),
                       u.propertyId.ApplyTo(m.propertyId),
                       u.createdAt.ApplyTo(m.createdAt),
                       u.updatedAt.ApplyTo(m.updatedAt),
                       m.details + u.details)
  }

  /** Merging the same update twice is merging it once. */
  lemma MergeTwice(m: MaintenanceRequest, u: RequestPatch)
    ensures MergeRequest(MergeRequest(m, u), u) == MergeRequest(m, u)
  {
    assert (m.details + u.details) + u.details == m.details + u.details;
  }

  /** What `initializeRequests` loads: the demo records when storage is
      empty, the stored list otherwise. */
  function InitialRequests(stored: seq<MaintenanceRequest>, demo: seq<MaintenanceRequest>): (r: seq<MaintenanceRequest>)
    ensures stored == [] ==> r == demo
    ensures stored != [] ==> r == stored
  {
    if |stored| == 0 then demo else stored
  }

  /** One matching record after `updateRequest`: merged, then stamped. */
  function Stamped(m: MaintenanceRequest, u: RequestPatch, now: Time): MaintenanceRequest {
    MergeRequest(m, u).(updatedAt := now)
  }

  /** The list after `updateRequest(id, updates)`: every record with that id
      merged and its `updatedAt` refreshed; the others untouched. */
  function UpdatedRequests(requests: seq<MaintenanceRequest>, id: Id, u: RequestPatch, now: Time): (r: seq<MaintenanceRequest>)
    ensures |r| == |requests|
    ensures forall k :: 0 <= k < |r| && requests[k].id == id ==> r[k] == Stamped(requests[k], u, now)
    ensures forall k :: 0 <= k < |r| && requests[k].id != id ==> r[k] == requests[k]
    ensures (forall m :: m in requests ==> m.id != id) ==> r == requests
  {
    Seqs.MapWhere(requests, (m: MaintenanceRequest) => m.id == id, (m: MaintenanceRequest) => Stamped(m, u, now))
  }

  /** The list after `deleteRequest(id)`: every record with that id removed,
      the rest in order. */
  function DeletedRequests(requests: seq<MaintenanceRequest>, id: Id): (r: seq<MaintenanceRequest>)
    ensures forall m :: m in r <==> m in requests && m.id != id
    ensures Seqs.IsFilterOf(r, requests, (m: MaintenanceRequest) => m.id != id)
  {
    Seqs.FilterIsFilterOf(requests, (m: MaintenanceRequest) => m.id != id);
    Seqs.Filter(requests, (m: MaintenanceRequest) => m.id != id)
  }

  /** `getRequestById(id)`: the first record with that id. */
  function GetRequestById(requests: seq<MaintenanceRequest>, id: Id): (r: Option<MaintenanceRequest>)
    ensures r.None? <==> forall m :: m in requests ==> m.id != id
    ensures r.Some? ==> r.value in requests && r.value.id == id
    ensures r.Some? ==> r.value == requests[Seqs.FirstIndex(requests, (m: MaintenanceRequest) => m.id == id)]
  {
    Seqs.Find(requests, (m: MaintenanceRequest) => m.id == id)
  }

  /** `getRequestsByCustomer(customerId)`: the records of that customer, in stored order. */
  function GetRequestsByCustomer(requests: seq<MaintenanceRequest>, customerId: Id): (r: seq<MaintenanceRequest>)
    ensures forall m :: m in r <==> m in requests && m.customerId == customerId
    ensures Seqs.IsFilterOf(r, requests, (m: MaintenanceRequest) => m.customerId == customerId)
  {
    Seqs.FilterIsFilterOf(requests, (m: MaintenanceRequest) => m.customerId == customerId);
    Seqs.Filter(requests, (m: MaintenanceRequest) => m.customerId == customerId)
  }

  /** `getRequestsByAgent(agentId)`: the records of that agent, in stored order. */
  function GetRequestsByAgent(requests: seq<MaintenanceRequest>, agentId: Id): (r: seq<MaintenanceRequest>)
    ensures forall m :: m in r <==> m in requests && m.agentId == agentId
    ensures Seqs.IsFilterOf(r, requests, (m: MaintenanceRequest) => m.agentId == agentId)
  {
    Seqs.FilterIsFilterOf(requests, (m: MaintenanceRequest) => m.agentId == agentId);
    Seqs.Filter(requests, (m: MaintenanceRequest) => m.agentId == agentId)
  }

  /** `getRequestsByProperty(propertyId)`: the records of that property, in stored order. */
  function GetRequestsByProperty(requests: seq<MaintenanceRequest>, propertyId: Id): (r: seq<MaintenanceRequest>)
    ensures forall m :: m in r <==> m in requests && m.propertyId == propertyId
    ensures Seqs.IsFilterOf(r, requests, (m: MaintenanceRequest) => m.propertyId == propertyId)
  {
    Seqs.FilterIsFilterOf(requests, (m: MaintenanceRequest) => m.propertyId == propertyId);
    Seqs.Filter(requests, (m: MaintenanceRequest) => m.propertyId == propertyId)
  }

  /** `addRequest` checks no id: looking the new record's id up finds it only
      when no earlier record has that id. */
  lemma AddedRequestFound(requests: seq<MaintenanceRequest>, m: MaintenanceRequest)
    ensures GetRequestById(requests + [m], m.id) ==
            if GetRequestById(requests, m.id).Some? then GetRequestById(requests, m.id) else Some(m)
  {
    Seqs.FindAppend(requests, m, (y: MaintenanceRequest) => y.id == m.id);
  }

  /** After `deleteRequest(id)` the id is gone, and the list is shorter by
      exactly the number of records that carried it. */
  lemma DeletedRequestGone(requests: seq<MaintenanceRequest>, id: Id)
    ensures GetRequestById(DeletedRequests(requests, id), id).None?
    ensures |DeletedRequests(requests, id)| == |requests| - Seqs.Count(requests, (m: MaintenanceRequest) => m.id == id)
  {
    Seqs.FilterLength(requests, (m: MaintenanceRequest) => m.id != id);
    Seqs.CountComplement(requests, (m: MaintenanceRequest) => m.id == id, (m: MaintenanceRequest) => m.id != id);
  }

  /** Repeating an update (at the same time) changes nothing more. */
  lemma UpdateRequestIdempotent(requests: seq<MaintenanceRequest>, id: Id, u: RequestPatch, now: Time)
    ensures UpdatedRequests(UpdatedRequests(requests, id, u, now), id, u, now) == UpdatedRequests(requests, id, u, now)
  {
    var once := UpdatedRequests(requests, id, u, now);
    var twice := UpdatedRequests(once, id, u, now);
    forall k | 0 <= k < |requests| ensures twice[k] == once[k] {
      if requests[k].id == id {
        MergeTwice(requests[k], u);
      }
    }
  }

  /** An empty update still refreshes `updatedAt` of the matching records,
      and touches nothing else. */
  lemma EmptyUpdateRequestStamps(requests: seq<MaintenanceRequest>, id: Id, now: Time)
    ensures var r := UpdatedRequests(requests, id, NoRequestChange, now);
      |r| == |requests| &&
      (forall k :: 0 <= k < |r| && requests[k].id == id ==> r[k] == requests[k].(updatedAt := now)) &&
      (forall k :: 0 <= k < |r| && requests[k].id != id ==> r[k] == requests[k])
  {
    var r := UpdatedRequests(requests, id, NoRequestChange, now);
    forall k | 0 <= k < |r| && requests[k].id == id ensures r[k] == requests[k].(updatedAt := now) {
      assert requests[k].details + map[] == requests[k].details;
    }
  }

  class RequestStore {
    var requests: seq<MaintenanceRequest>
    /** The copy under the maintenance requests storage key. */
    ghost var persisted: seq<MaintenanceRequest>

    ghost predicate Valid()
      reads this
    {
      persisted == requests
    }

    constructor ()
      ensures requests == [] && Valid()
    {
      requests := [];
      persisted := [];
    }

    /** `initializeRequests`: seeds storage with the demo records when it is empty. */
    method InitializeRequests(stored: seq<MaintenanceRequest>, demo: seq<MaintenanceRequest>)
      modifies this
      ensures requests == InitialRequests(stored, demo) && Valid()
    {
      if |stored| == 0 {
        persisted := demo;
        requests := demo;
      } else {
        requests := stored;
        persisted := stored;
      }
    }

    /** `loadRequests`: takes whatever storage holds, even an empty list, and
        never seeds. */
    method LoadRequests(stored: seq<MaintenanceRequest>)
      modifies this
      ensures requests == stored && Valid()
    {
      requests := stored;
      persisted := stored;
    }

    /** `addRequest`: appends the caller's record unchanged. */
    method AddRequest(m: MaintenanceRequest)
      requires Valid()
      modifies this
      ensures requests == old(requests) + [m] && Valid()
    {
      requests := requests + [m];
      persisted := requests;
    }

    method UpdateRequest(id: Id, u: RequestPatch, now: Time)
      requires Valid()
      modifies this
      ensures requests == UpdatedRequests(old(requests), id, u, now) && Valid()
    {
      requests := UpdatedRequests(requests, id, u, now);
      persisted := requests;
    }

    method DeleteRequest(id: Id)
      requires Valid()
      modifies this
      ensures requests == DeletedRequests(old(requests), id) && Valid()
    {
      requests := DeletedRequests(requests, id);
      persisted := requests;
    }
  }
}
