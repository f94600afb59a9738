/** The support inquiry store (src/store/inquiryStore.ts): the support tickets customers open.
    Records arrive complete from the caller; the store assigns no id and
    no creation time. */
module Inquiries {
  import opened Wrappers
  import opened Types
  import Seqs

  /** A support inquiry.  The fields the store reads are typed; the others
      (ticket number, subject, description, category, priority, status and responses)
      are kept by name in `details`. */
  datatype Inquiry = Inquiry(
    id: Id, customerId: Id, agentId: Option<Id>, createdAt: Time, updatedAt: Time, details: map<string, string>)

  /** `Partial<Inquiry>`: the typed fields it sets, and the other fields it
      sets in `details`. */
  datatype InquiryPatch = InquiryPatch(
    id: Change<Id>, customerId: Change<Id>, agentId: Change<Option<Id>>, createdAt: Change<Time>, updatedAt: Change<Time>, details: map<string, string>)

  const NoInquiryChange := InquiryPatch(Keep, Keep, Keep, Keep, Keep, map[])

  /** `{ ...i, ...updates }`: a field the update sets wins. */
  function MergeInquiry(i: Inquiry, u: InquiryPatch): Inquiry {
    Inquiry(u.id.ApplyTo(i.id),
            u.customerId.ApplyTo(i.customerId),
            u.agentId.ApplyTo(i.agentId),
            u.createdAt.ApplyTo(i.createdAt),
            u.updatedAt.ApplyTo(i.updatedAt),
            i.details + u.details)
  }

  /** Merging the same update twice is merging it once. */
  lemma MergeTwice(i: Inquiry, u: InquiryPatch)
    ensures MergeInquiry(MergeInquiry(i, u), u) == MergeInquiry(i, u)
  {
    assert (i.details + u.details) + u.details == i.details + u.details;
  }

  /** What `initializeInquiries` loads: the demo records when storage is
      empty, the stored list otherwise. */
  function InitialInquiries(stored: seq<Inquiry>, demo: seq<Inquiry>): (r: seq<Inquiry>)
    ensures stored == [] ==> r == demo
    ensures stored != [] ==> r == stored
  {
    if |stored| == 0 then demo else stored
  }

  /** One matching record after `updateInquiry`: merged, then stamped. */
  function Stamped(i: Inquiry, u: InquiryPatch, now: Time): Inquiry {
    MergeInquiry(i, u).(updatedAt := now)
  }

  /** The list after `updateInquiry(id, updates)`: every record with that id
      merged and its `updatedAt` refreshed; the others untouched. */
  function UpdatedInquiries(inquiries: seq<Inquiry>, id: Id, u: InquiryPatch, now: Time): (r: seq<Inquiry>)
    ensures |r| == |inquiries|
    ensures forall k :: 0 <= k < |r| && inquiries[k].id == id ==> r[k] == Stamped(inquiries[k], u, now)
    ensures forall k :: 0 <= k < |r| && inquiries[k].id != id ==> r[k] == inquiries[k]
    ensures (forall i :: i in inquiries ==> i.id != id) ==> r == inquiries
  {
    Seqs.MapWhere(inquiries, (i: Inquiry) => i.id == id, (i: Inquiry) => Stamped(i, u, now))
  }

  /** The list after `deleteInquiry(id)`: every record with that id removed,
      the rest in order. */
  function DeletedInquiries(inquiries: seq<Inquiry>, id: Id): (r: seq<Inquiry>)
    ensures forall i :: i in r <==> i in inquiries && i.id != id
    ensures Seqs.IsFilterOf(r, inquiries, (i: Inquiry) => i.id != id)
  {
    Seqs.FilterIsFilterOf(inquiries, (i: Inquiry) => i.id != id);
    Seqs.Filter(inquiries, (i: Inquiry) => i.id != id)
  }

  /** `getInquiryById(id)`: the first record with that id. */
  function GetInquiryById(inquiries: seq<Inquiry>, id: Id): (r: Option<Inquiry>)
    ensures r.None? <==> forall i :: i in inquiries ==> i.id != id
    ensures r.Some? ==> r.value in inquiries && r.value.id == id
    ensures r.Some? ==> r.value == inquiries[Seqs.FirstIndex(inquiries, (i: Inquiry) => i.id == id)]
  {
    Seqs.Find(inquiries, (i: Inquiry) => i.id == id)
  }

  /** `getInquiriesByCustomer(customerId)`: the records of that customer, in stored order. */
  function GetInquiriesByCustomer(inquiries: seq<Inquiry>, customerId: Id): (r: seq<Inquiry>)
    ensures forall i :: i in r <==> i in inquiries && i.customerId == customerId
    ensures Seqs.IsFilterOf(r, inquiries, (i: Inquiry) => i.customerId == customerId)
  {
    Seqs.FilterIsFilterOf(inquiries, (i: Inquiry) => i.customerId == customerId);
    Seqs.Filter(inquiries, (i: Inquiry) => i.customerId == customerId)
  }

  /** `getInquiriesByAgent(agentId)`: the records whose `agentId` is that id, in
      stored order; a record with no `agentId` is in nobody's list. */
  function GetInquiriesByAgent(inquiries: seq<Inquiry>, agentId: Id): (r: seq<Inquiry>)
    ensures forall i :: i in r <==> i in inquiries && i.agentId == Some(agentId)
    ensures forall i :: i in r ==> i.agentId.Some?
    ensures Seqs.IsFilterOf(r, inquiries, (i: Inquiry) => i.agentId == Some(agentId))
  {
    Seqs.FilterIsFilterOf(inquiries, (i: Inquiry) => i.agentId == Some(agentId));
    Seqs.Filter(inquiries, (i: Inquiry) => i.agentId == Some(agentId))
  }

  /** `addInquiry` checks no id: looking the new record's id up finds it only
      when no earlier record has that id. */
  lemma AddedInquiryFound(inquiries: seq<Inquiry>, i: Inquiry)
    ensures GetInquiryById(inquiries + [i], i.id) ==
            if GetInquiryById(inquiries, i.id).Some? then GetInquiryById(inquiries, i.id) else Some(i)
  {
    Seqs.FindAppend(inquiries, i, (y: Inquiry) => y.id == i.id);
  }

  /** After `deleteInquiry(id)` the id is gone, and the list is shorter by
      exactly the number of records that carried it. */
  lemma DeletedInquiryGone(inquiries: seq<Inquiry>, id: Id)
    ensures GetInquiryById(DeletedInquiries(inquiries, id), id).None?
    ensures |DeletedInquiries(inquiries, id)| == |inquiries| - Seqs.Count(inquiries, (i: Inquiry) => i.id == id)
  {
    Seqs.FilterLength(inquiries, (i: Inquiry) => i.id != id);
    Seqs.CountComplement(inquiries, (i: Inquiry) => i.id == id, (i: Inquiry) => i.id != id);
  }

  /** Repeating an update (at the same time) changes nothing more. */
  lemma UpdateInquiryIdempotent(inquiries: seq<Inquiry>, id: Id, u: InquiryPatch, now: Time)
    ensures UpdatedInquiries(UpdatedInquiries(inquiries, id, u, now), id, u, now) == UpdatedInquiries(inquiries, id, u, now)
  {
    var once := UpdatedInquiries(inquiries, id, u, now);
    var twice := UpdatedInquiries(once, id, u, now);
    forall k | 0 <= k < |inquiries| ensures twice[k] == once[k] {
      if inquiries[k].id == id {
        MergeTwice(inquiries[k], u);
      }
    }
  }

  /** An empty update still refreshes `updatedAt` of the matching records,
      and touches nothing else. */
  lemma EmptyUpdateInquiryStamps(inquiries: seq<Inquiry>, id: Id, now: Time)
    ensures var r := UpdatedInquiries(inquiries, id, NoInquiryChange, now);
      |r| == |inquiries| &&
      (forall k :: 0 <= k < |r| && inquiries[k].id == id ==> r[k] == inquiries[k].(updatedAt := now)) &&
      (forall k :: 0 <= k < |r| && inquiries[k].id != id ==> r[k] == inquiries[k])
  {
    var r := UpdatedInquiries(inquiries, id, NoInquiryChange, now);
    forall k | 0 <= k < |r| && inquiries[k].id == id ensures r[k] == inquiries[k].(updatedAt := now) {
      assert inquiries[k].details + map[] == inquiries[k].details;
    }
  }

  class InquiryStore {
    var inquiries: seq<Inquiry>
    /** The copy under the support inquiries storage key. */
    ghost var persisted: seq<Inquiry>

    ghost predicate Valid()
      reads this
    {
      persisted == inquiries
    }

    constructor ()
      ensures inquiries == [] && Valid()
    {
      inquiries := [];
      persisted := [];
    }

    /** `initializeInquiries`: seeds storage with the demo records when it is empty. */
    method InitializeInquiries(stored: seq<Inquiry>, demo: seq<Inquiry>)
      modifies this
      ensures inquiries == InitialInquiries(stored, demo) && Valid()
    {
      if |stored| == 0 {
        persisted := demo;
        inquiries := demo;
      } else {
        inquiries := stored;
        persisted := stored;
      }
    }

    /** `loadInquiries`: takes whatever storage holds, even an empty list, and
        never seeds. */
    method LoadInquiries(stored: seq<Inquiry>)
      modifies this
      ensures inquiries == stored && Valid()
    {
      inquiries := stored;
      persisted := stored;
    }

    /** `addInquiry`: appends the caller's record unchanged. */
    method AddInquiry(i: Inquiry)
      requires Valid()
      modifies this
      ensures inquiries == old(inquiries) + [i] && Valid()
    {
      inquiries := inquiries + [i];
      persisted := inquiries;
    }

    method UpdateInquiry(id: Id, u: InquiryPatch, now: Time)
      requires Valid()
      modifies this
      ensures inquiries == UpdatedInquiries(old(inquiries), id, u, now) && Valid()
    {
      inquiries := UpdatedInquiries(inquiries, id, u, now);
      persisted := inquiries;
    }

    method DeleteInquiry(id: Id)
      requires Valid()
      modifies this
      ensures inquiries == DeletedInquiries(old(inquiries), id) && Valid()
    {
      inquiries := DeletedInquiries(inquiries, id);
      persisted := inquiries;
    }
  }
}
