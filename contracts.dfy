/** The contract store (src/store/contractStore.ts): the sale and lease contracts between customers and agents.
    Records arrive complete from the caller; the store assigns no id and
    no creation time. */
module Contracts {
  import opened Wrappers
  import opened Types
  import Seqs

  /** A contract.  The fields the store reads are typed; the others
      (contract number, status, terms, the dates and any timestamps)
      are kept by name in `details`. */
  datatype Contract = Contract(
    id: Id, customerId: Id, agentId: Id, propertyId: Id, details: map<string, string>)

  /** `Partial<Contract>`: the typed fields it sets, and the other fields it
      sets in `details`. */
  datatype ContractPatch = ContractPatch(
    id: Change<Id>, customerId: Change<Id>, agentId: Change<Id>, propertyId: Change<Id>, details: map<string, string>)

  const NoContractChange := ContractPatch(Keep, Keep, Keep, Keep, map[])

  /** `{ ...c, ...updates }`: a field the update sets wins. */
  function MergeContract(c: Contract, u: ContractPatch): Contract {
    Contract(u.id.ApplyTo(c.id),
             u.customerId.ApplyTo(c.customerId),
             u.agentId.ApplyTo(c.agentId),
             u.propertyId.ApplyTo(c.propertyId),
             c.details + u.details)
  }

  /** Merging the same update twice is merging it once. */
  lemma MergeTwice(c: Contract, u: ContractPatch)
    ensures MergeContract(MergeContract(c, u), u) == MergeContract(c, u)
  {
    assert (c.details + u.details) + u.details == c.details + u.details;
  }

  /** What `initializeContracts` loads: the demo records when storage is
      empty, the stored list otherwise. */
  function InitialContracts(stored: seq<Contract>, demo: seq<Contract>): (r: seq<Contract>)
    ensures stored == [] ==> r == demo
    ensures stored != [] ==> r == stored
  {
    if |stored| == 0 then demo else stored
  }

  /** The list after `updateContract(id, updates)`: every record with that id
      merged, no timestamp touched; the others untouched. */
  function UpdatedContracts(contracts: seq<Contract>, id: Id, u: ContractPatch): (r: seq<Contract>)
    ensures |r| == |contracts|
    ensures forall k :: 0 <= k < |r| && contracts[k].id == id ==> r[k] == MergeContract(contracts[k], u)
    ensures forall k :: 0 <= k < |r| && contracts[k].id != id ==> r[k] == contracts[k]
    ensures (forall c :: c in contracts ==> c.id != id) ==> r == contracts
  {
    Seqs.MapWhere(contracts, (c: Contract) => c.id == id, (c: Contract) => MergeContract(c, u))
  }

  /** The list after `deleteContract(id)`: every record with that id removed,
      the rest in order. */
  function DeletedContracts(contracts: seq<Contract>, id: Id): (r: seq<Contract>)
    ensures forall c :: c in r <==> c in contracts && c.id != id
    ensures Seqs.IsFilterOf(r, contracts, (c: Contract) => c.id != id)
  {
    Seqs.FilterIsFilterOf(contracts, (c: Contract) => c.id != id);
    Seqs.Filter(contracts, (c: Contract) => c.id != id)
  }

  /** `getContractById(id)`: the first record with that id. */
  function GetContractById(contracts: seq<Contract>, id: Id): (r: Option<Contract>)
    ensures r.None? <==> forall c :: c in contracts ==> c.id != id
    ensures r.Some? ==> r.value in contracts && r.value.id == id
    ensures r.Some? ==> r.value == contracts[Seqs.FirstIndex(contracts, (c: Contract) => c.id == id)]
  {
    Seqs.Find(contracts, (c: Contract) => c.id == id)
  }

  /** `getContractsByCustomer(customerId)`: the records of that customer, in stored order. */
  function GetContractsByCustomer(contracts: seq<Contract>, customerId: Id): (r: seq<Contract>)
    ensures forall c :: c in r <==> c in contracts && c.customerId == customerId
    ensures Seqs.IsFilterOf(r, contracts, (c: Contract) => c.customerId == customerId)
  {
    Seqs.FilterIsFilterOf(contracts, (c: Contract) => c.customerId == customerId);
    Seqs.Filter(contracts, (c: Contract) => c.customerId == customerId)
  }

  /** `getContractsByAgent(agentId)`: the records of that agent, in stored order. */
  function GetContractsByAgent(contracts: seq<Contract>, agentId: Id): (r: seq<Contract>)
    ensures forall c :: c in r <==> c in contracts && c.agentId == agentId
    ensures Seqs.IsFilterOf(r, contracts, (c: Contract) => c.agentId == agentId)
  {
    Seqs.FilterIsFilterOf(contracts, (c: Contract) => c.agentId == agentId);
    Seqs.Filter(contracts, (c: Contract) => c.agentId == agentId)
  }

  /** `getContractsByProperty(propertyId)`: the records of that property, in stored order. */
  function GetContractsByProperty(contracts: seq<Contract>, propertyId: Id): (r: seq<Contract>)
    ensures forall c :: c in r <==> c in contracts && c.propertyId == propertyId
    ensures Seqs.IsFilterOf(r, contracts, (c: Contract) => c.propertyId == propertyId)
  {
    Seqs.FilterIsFilterOf(contracts, (c: Contract) => c.propertyId == propertyId);
    Seqs.Filter(contracts, (c: Contract) => c.propertyId == propertyId)
  }

  /** `addContract` checks no id: looking the new record's id up finds it only
      when no earlier record has that id. */
  lemma AddedContractFound(contracts: seq<Contract>, c: Contract)
    ensures GetContractById(contracts + [c], c.id) ==
            if GetContractById(contracts, c.id).Some? then GetContractById(contracts, c.id) else Some(c)
  {
    Seqs.FindAppend(contracts, c, (y: Contract) => y.id == c.id);
  }

  /** After `deleteContract(id)` the id is gone, and the list is shorter by
      exactly the number of records that carried it. */
  lemma DeletedContractGone(contracts: seq<Contract>, id: Id)
    ensures GetContractById(DeletedContracts(contracts, id), id).None?
    ensures |DeletedContracts(contracts, id)| == |contracts| - Seqs.Count(contracts, (c: Contract) => c.id == id)
  {
    Seqs.FilterLength(contracts, (c: Contract) => c.id != id);
    Seqs.CountComplement(contracts, (c: Contract) => c.id == id, (c: Contract) => c.id != id);
  }

  /** Repeating an update (at the same time) changes nothing more. */
  lemma UpdateContractIdempotent(contracts: seq<Contract>, id: Id, u: ContractPatch)
    ensures UpdatedContracts(UpdatedContracts(contracts, id, u), id, u) == UpdatedContracts(contracts, id, u)
  {
    var once := UpdatedContracts(contracts, id, u);
    var twice := UpdatedContracts(once, id, u);
    forall k | 0 <= k < |contracts| ensures twice[k] == once[k] {
      if contracts[k].id == id {
        MergeTwice(contracts[k], u);
      }
    }
  }

  /** No timestamp is refreshed: an empty update leaves the list as it was. */
  lemma EmptyUpdateContractChangesNothing(contracts: seq<Contract>, id: Id)
    ensures UpdatedContracts(contracts, id, NoContractChange) == contracts
  {
    var r := UpdatedContracts(contracts, id, NoContractChange);
    forall k | 0 <= k < |r| ensures r[k] == contracts[k] {
      assert contracts[k].details + map[] == contracts[k].details;
    }
  }

  class ContractStore {
    var contracts: seq<Contract>
    /** The copy under the contracts storage key. */
    ghost var persisted: seq<Contract>

    ghost predicate Valid()
      reads this
    {
      persisted == contracts
    }

    constructor ()
      ensures contracts == [] && Valid()
    {
      contracts := [];
      persisted := [];
    }

    /** `initializeContracts`: seeds storage with the demo records when it is empty. */
    method InitializeContracts(stored: seq<Contract>, demo: seq<Contract>)
      modifies this
      ensures contracts == InitialContracts(stored, demo) && Valid()
    {
      if |stored| == 0 {
        persisted := demo;
        contracts := demo;
      } else {
        contracts := stored;
        persisted := stored;
      }
    }

    /** `loadContracts`: takes whatever storage holds, even an empty list, and
        never seeds. */
    method LoadContracts(stored: seq<Contract>)
      modifies this
      ensures contracts == stored && Valid()
    {
      contracts := stored;
      persisted := stored;
    }

    /** `addContract`: appends the caller's record unchanged. */
    method AddContract(c: Contract)
      requires Valid()
      modifies this
      ensures contracts == old(contracts) + [c] && Valid()
    {
      contracts := contracts + [c];
      persisted := contracts;
    }

    method UpdateContract(id: Id, u: ContractPatch)
      requires Valid()
      modifies this
      ensures contracts == UpdatedContracts(old(contracts), id, u) && Valid()
    {
      contracts := UpdatedContracts(contracts, id, u);
      persisted := contracts;
    }

    method DeleteContract(id: Id)
      requires Valid()
      modifies this
      ensures contracts == DeletedContracts(old(contracts), id) && Valid()
    {
      contracts := DeletedContracts(contracts, id);
      persisted := contracts;
    }
  }
}
