/** The payment store (src/store/paymentStore.ts): the payments customers owe or have made on properties.
    Records arrive complete from the caller; the store assigns no id and
    no creation time. */
module Payments {
  import opened Wrappers
  import opened Types
  import Seqs

  /** A payment.  The fields the store reads are typed; the others
      (amount, status, payment method, the dates, receipt number, notes and any timestamps)
      are kept by name in `details`. */
  datatype Payment = Payment(
    id: Id, customerId: Id, agentId: Id, propertyId: Id, details: map<string, string>)

  /** `Partial<Payment>`: the typed fields it sets, and the other fields it
      sets in `details`. */
  datatype PaymentPatch = PaymentPatch(
    id: Change<Id>, customerId: Change<Id>, agentId: Change<Id>, propertyId: Change<Id>, details: map<string, string>)

  const NoPaymentChange := PaymentPatch(Keep, Keep, Keep, Keep, map[])

  /** `{ ...p, ...updates }`: a field the update sets wins. */
  function MergePayment(p: Payment, u: PaymentPatch): Payment {
    Payment(u.id.ApplyTo(p.id),
            u.customerId.ApplyTo(p.customerId),
            u.agentId.ApplyTo(p.agentId),
            u.propertyId.ApplyTo(p.propertyId),
            p.details + u.details)
  }

  /** Merging the same update twice is merging it once. */
  lemma MergeTwice(p: Payment, u: PaymentPatch)
    ensures MergePayment(MergePayment(p, u), u) == MergePayment(p, u)
  {
    assert (p.details + u.details) + u.details == p.details + u.details;
  }

  /** What `initializePayments` loads: the demo records when storage is
      empty, the stored list otherwise. */
  function InitialPayments(stored: seq<Payment>, demo: seq<Payment>): (r: seq<Payment>)
    ensures stored == [] ==> r == demo
    ensures stored != [] ==> r == stored
  {
    if |stored| == 0 then demo else stored
  }

  /** The list after `updatePayment(id, updates)`: every record with that id
      merged, no timestamp touched; the others untouched. */
  function UpdatedPayments(payments: seq<Payment>, id: Id, u: PaymentPatch): (r: seq<Payment>)
    ensures |r| == |payments|
    ensures forall k :: 0 <= k < |r| && payments[k].id == id ==> r[k] == MergePayment(payments[k], u)
    ensures forall k :: 0 <= k < |r| && payments[k].id != id ==> r[k] == payments[k]
    ensures (forall p :: p in payments ==> p.id != id) ==> r == payments
  {
    Seqs.MapWhere(payments, (p: Payment) => p.id == id, (p: Payment) => MergePayment(p, u))
  }

  /** The list after `deletePayment(id)`: every record with that id removed,
      the rest in order. */
  function DeletedPayments(payments: seq<Payment>, id: Id): (r: seq<Payment>)
    ensures forall p :: p in r <==> p in payments && p.id != id
    ensures Seqs.IsFilterOf(r, payments, (p: Payment) => p.id != id)
  {
    Seqs.FilterIsFilterOf(payments, (p: Payment) => p.id != id);
    Seqs.Filter(payments, (p: Payment) => p.id != id)
  }

  /** `getPaymentById(id)`: the first record with that id. */
  function GetPaymentById(payments: seq<Payment>, id: Id): (r: Option<Payment>)
    ensures r.None? <==> forall p :: p in payments ==> p.id != id
    ensures r.Some? ==> r.value in payments && r.value.id == id
    ensures r.Some? ==> r.value == payments[Seqs.FirstIndex(payments, (p: Payment) => p.id == id)]
  {
    Seqs.Find(payments, (p: Payment) => p.id == id)
  }

  /** `getPaymentsByCustomer(customerId)`: the records of that customer, in stored order. */
  function GetPaymentsByCustomer(payments: seq<Payment>, customerId: Id): (r: seq<Payment>)
    ensures forall p :: p in r <==> p in payments && p.customerId == customerId
    ensures Seqs.IsFilterOf(r, payments, (p: Payment) => p.customerId == customerId)
  {
    Seqs.FilterIsFilterOf(payments, (p: Payment) => p.customerId == customerId);
    Seqs.Filter(payments, (p: Payment) => p.customerId == customerId)
  }

  /** `getPaymentsByAgent(agentId)`: the records of that agent, in stored order. */
  function GetPaymentsByAgent(payments: seq<Payment>, agentId: Id): (r: seq<Payment>)
    ensures forall p :: p in r <==> p in payments && p.agentId == agentId
    ensures Seqs.IsFilterOf(r, payments, (p: Payment) => p.agentId == agentId)
  {
    Seqs.FilterIsFilterOf(payments, (p: Payment) => p.agentId == agentId);
    Seqs.Filter(payments, (p: Payment) => p.agentId == agentId)
  }

  /** `getPaymentsByProperty(propertyId)`: the records of that property, in stored order. */
  function GetPaymentsByProperty(payments: seq<Payment>, propertyId: Id): (r: seq<Payment>)
    ensures forall p :: p in r <==> p in payments && p.propertyId == propertyId
    ensures Seqs.IsFilterOf(r, payments, (p: Payment) => p.propertyId == propertyId)
  {
    Seqs.FilterIsFilterOf(payments, (p: Payment) => p.propertyId == propertyId);
    Seqs.Filter(payments, (p: Payment) => p.propertyId == propertyId)
  }

  /** `addPayment` checks no id: looking the new record's id up finds it only
      when no earlier record has that id. */
  lemma AddedPaymentFound(payments: seq<Payment>, p: Payment)
    ensures GetPaymentById(payments + [p], p.id) ==
            if GetPaymentById(payments, p.id).Some? then GetPaymentById(payments, p.id) else Some(p)
  {
    Seqs.FindAppend(payments, p, (y: Payment) => y.id == p.id);
  }

  /** After `deletePayment(id)` the id is gone, and the list is shorter by
      exactly the number of records that carried it. */
  lemma DeletedPaymentGone(payments: seq<Payment>, id: Id)
    ensures GetPaymentById(DeletedPayments(payments, id), id).None?
    ensures |DeletedPayments(payments, id)| == |payments| - Seqs.Count(payments, (p: Payment) => p.id == id)
  {
    Seqs.FilterLength(payments, (p: Payment) => p.id != id);
    Seqs.CountComplement(payments, (p: Payment) => p.id == id, (p: Payment) => p.id != id);
  }

  /** Repeating an update (at the same time) changes nothing more. */
  lemma UpdatePaymentIdempotent(payments: seq<Payment>, id: Id, u: PaymentPatch)
    ensures UpdatedPayments(UpdatedPayments(payments, id, u), id, u) == UpdatedPayments(payments, id, u)
  {
    var once := UpdatedPayments(payments, id, u);
    var twice := UpdatedPayments(once, id, u);
    forall k | 0 <= k < |payments| ensures twice[k] == once[k] {
      if payments[k].id == id {
        MergeTwice(payments[k], u);
      }
    }
  }

  /** No timestamp is refreshed: an empty update leaves the list as it was. */
  lemma EmptyUpdatePaymentChangesNothing(payments: seq<Payment>, id: Id)
    ensures UpdatedPayments(payments, id, NoPaymentChange) == payments
  {
    var r := UpdatedPayments(payments, id, NoPaymentChange);
    forall k | 0 <= k < |r| ensures r[k] == payments[k] {
      assert payments[k].details + map[] == payments[k].details;
    }
  }

  class PaymentStore {
    var payments: seq<Payment>
    /** The copy under the payments storage key. */
    ghost var persisted: seq<Payment>

    ghost predicate Valid()
      reads this
    {
      persisted == payments
    }

    constructor ()
      ensures payments == [] && Valid()
    {
      payments := [];
      persisted := [];
    }

    /** `initializePayments`: seeds storage with the demo records when it is empty. */
    method InitializePayments(stored: seq<Payment>, demo: seq<Payment>)
      modifies this
      ensures payments == InitialPayments(stored, demo) && Valid()
    {
      if |stored| == 0 {
        persisted := demo;
        payments := demo;
      } else {
        payments := stored;
        persisted := stored;
      }
    }

    /** `loadPayments`: takes whatever storage holds, even an empty list, and
        never seeds. */
    method LoadPayments(stored: seq<Payment>)
      modifies this
      ensures payments == stored && Valid()
    {
      payments := stored;
      persisted := stored;
    }

    /** `addPayment`: appends the caller's record unchanged. */
    method AddPayment(p: Payment)
      requires Valid()
      modifies this
      ensures payments == old(payments) + [p] && Valid()
    {
      payments := payments + [p];
      persisted := payments;
    }

    method UpdatePayment(id: Id, u: PaymentPatch)
      requires Valid()
      modifies this
      ensures payments == UpdatedPayments(old(payments), id, u) && Valid()
    {
      payments := UpdatedPayments(payments, id, u);
      persisted := payments;
    }

    method DeletePayment(id: Id)
      requires Valid()
      modifies this
      ensures payments == DeletedPayments(old(payments), id) && Valid()
    {
      payments := DeletedPayments(payments, id);
      persisted := payments;
    }
  }
}
