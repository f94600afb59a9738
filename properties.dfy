/** The property store (src/store/propertyStore.ts): every listing, written
    through to storage on every change. */
module Properties {
  import opened Wrappers
  import opened Types
  import Seqs

  /** `getPropertyById`: the first property with that id. */
  function GetPropertyById(properties: seq<Property>, id: Id): (r: Option<Property>)
    ensures r.None? <==> forall p :: p in properties ==> p.id != id
    ensures r.Some? ==> r.value in properties && r.value.id == id
    ensures r.Some? ==> forall j :: 0 <= j < |properties| && properties[j].id == id ==>
                          Seqs.FirstIndex(properties, (p: Property) => p.id == id) <= j
    ensures r.Some? ==> r.value == properties[Seqs.FirstIndex(properties, (p: Property) => p.id == id)]
  {
    Seqs.Find(properties, (p: Property) => p.id == id)
  }

  /** `getPropertiesByAgent`. */
  function GetPropertiesByAgent(properties: seq<Property>, agentId: Id): (r: seq<Property>)
    ensures forall p :: p in r <==> p in properties && p.agentId == agentId
    ensures Seqs.IsFilterOf(r, properties, (p: Property) => p.agentId == agentId)
  {
    Seqs.FilterIsFilterOf(properties, (p: Property) => p.agentId == agentId);
    Seqs.Filter(properties, (p: Property) => p.agentId == agentId)
  }

  /** `getActiveProperties`: the listings customers may browse and book. */
  function GetActiveProperties(properties: seq<Property>): (r: seq<Property>)
    ensures forall p :: p in r <==> p in properties && p.status == PropertyStatus.Active
    ensures Seqs.IsFilterOf(r, properties, (p: Property) => p.status == PropertyStatus.Active)
  {
    Seqs.FilterIsFilterOf(properties, (p: Property) => p.status == PropertyStatus.Active);
    Seqs.Filter(properties, (p: Property) => p.status == PropertyStatus.Active)
  }

  /** What `initializeProperties` loads: the demo listings when storage is
      empty, the stored list otherwise. */
  function InitialProperties(stored: seq<Property>, demo: seq<Property>): (r: seq<Property>)
    ensures stored == [] ==> r == demo
    ensures stored != [] ==> r == stored
  {
    if |stored| == 0 then demo else stored
  }

  /** The record `addProperty` stores: the draft, its status kept as given,
      with a fresh id, both timestamps and no views. */
  function NewProperty(draft: PropertyDraft, id: Id, now: Time): (p: Property)
    ensures p.id == id && p.views == 0 && p.createdAt == now && p.updatedAt == now
    ensures p.status == draft.status && p.agentId == draft.agentId && p.title == draft.title
    ensures p.kind == draft.kind && p.price == draft.price && p.location == draft.location
    ensures p.bedrooms == draft.bedrooms && p.bathrooms == draft.bathrooms && p.area == draft.area
    ensures p.description == draft.description && p.photos == draft.photos
    ensures p.rejectionReason == draft.rejectionReason
  {
    Property(id, draft.agentId, draft.title, draft.kind, draft.price, draft.location,
             draft.bedrooms, draft.bathrooms, draft.area, draft.description, draft.photos,
             draft.status, draft.rejectionReason, 0, now, now)
  }

  function Stamped(p: Property, updates: PropertyPatch, now: Time): Property {
    MergeProperty(p, updates).(updatedAt := now)
  }

  /** The list after `updateProperty(id, updates)`. */
  function UpdatedProperties(properties: seq<Property>, id: Id, updates: PropertyPatch, now: Time)
    : (r: seq<Property>)
    ensures |r| == |properties|
    ensures forall i :: 0 <= i < |r| && properties[i].id == id ==>
              r[i] == Stamped(properties[i], updates, now)
    ensures forall i :: 0 <= i < |r| && properties[i].id != id ==> r[i] == properties[i]
    ensures (forall p :: p in properties ==> p.id != id) ==> r == properties
  {
    Seqs.MapWhere(properties, (p: Property) => p.id == id, (p: Property) => Stamped(p, updates, now))
  }

  /** The list after `deleteProperty(id)`: every record with that id gone, the
      rest kept in order.  Appointments are not touched. */
  function DeletedProperties(properties: seq<Property>, id: Id): (r: seq<Property>)
    ensures forall p :: p in r <==> p in properties && p.id != id
    ensures Seqs.IsFilterOf(r, properties, (p: Property) => p.id != id)
    ensures (forall p :: p in properties ==> p.id != id) ==> r == properties
  {
    Seqs.FilterIsFilterOf(properties, (p: Property) => p.id != id);
    if forall i :: 0 <= i < |properties| ==> properties[i].id != id then
      Seqs.FilterAll(properties, (p: Property) => p.id != id);
      Seqs.Filter(properties, (p: Property) => p.id != id)
    else
      Seqs.Filter(properties, (p: Property) => p.id != id)
  }

  /** The update `incrementViews` sends: one more than the views of the first
      record with that id. */
  function ViewsPatch(views: int): PropertyPatch {
    NoPropertyChange.(views := Put(views + 1))
  }

  /** The list after `incrementViews(id)`: the views of the first listing
      with that id, plus one, are written to every listing with that id,
      which is also restamped; nothing else changes, and an unknown id
      changes nothing at all. */
  function ViewedProperties(properties: seq<Property>, id: Id, now: Time): (r: seq<Property>)
    ensures |r| == |properties|
    ensures GetPropertyById(properties, id).None? ==> r == properties
    ensures forall k :: 0 <= k < |r| && properties[k].id == id ==>
              r[k] == properties[k].(views := properties[Seqs.FirstIndex(properties, (p: Property) => p.id == id)].views + 1,
                                     updatedAt := now)
    ensures forall k :: 0 <= k < |r| && properties[k].id != id ==> r[k] == properties[k]
  {
    match GetPropertyById(properties, id)
    case None => properties
    case Some(p) => UpdatedProperties(properties, id, ViewsPatch(p.views), now)
  }

  /** Ids that occur at most once. */
  predicate UniqueIds(properties: seq<Property>) {
    forall i, j :: 0 <= i < j < |properties| ==> properties[i].id != properties[j].id
  }

  /** `incrementViews` raises the views of the record with that id by exactly
      one and touches nothing else, and is a no-op for an absent id. */
  lemma ViewedPropertiesCounts(properties: seq<Property>, id: Id, now: Time)
    requires UniqueIds(properties)
    ensures var r := ViewedProperties(properties, id, now);
      |r| == |properties| &&
      (forall i :: 0 <= i < |r| && properties[i].id == id ==>
         r[i] == properties[i].(views := properties[i].views + 1, updatedAt := now)) &&
      (forall i :: 0 <= i < |r| && properties[i].id != id ==> r[i] == properties[i])
  {
    var found := GetPropertyById(properties, id);
    if found.Some? {
      var k := Seqs.FirstIndex(properties, (p: Property) => p.id == id);
      assert forall i :: 0 <= i < |properties| && properties[i].id == id ==> i == k;
    }
  }

  class PropertyStore {
    var properties: seq<Property>
    /** The copy under the properties storage key. */
    ghost var persisted: seq<Property>

    ghost predicate Valid()
      reads this
    {
      persisted == properties
    }

    constructor ()
      ensures properties == [] && Valid()
    {
      properties := [];
      persisted := [];
    }

    /** `initializeProperties`: seeds storage with the demo listings when it is empty. */
    method InitializeProperties(stored: seq<Property>, demo: seq<Property>)
      modifies this
      ensures properties == InitialProperties(stored, demo) && Valid()
    {
      if |stored| == 0 {
        persisted := demo;
        properties := demo;
      } else {
        properties := stored;
        persisted := stored;
      }
    }

    /** `addProperty`: appends one record and returns it. */
    method AddProperty(draft: PropertyDraft, id: Id, now: Time) returns (p: Property)
      modifies this
      ensures p == NewProperty(draft, id, now)
      ensures properties == old(properties) + [p] && Valid()
    {
      p := NewProperty(draft, id, now);
      properties := properties + [p];
      persisted := properties;
    }

    /** `updateProperty`. */
    method UpdateProperty(id: Id, updates: PropertyPatch, now: Time)
      modifies this
      ensures properties == UpdatedProperties(old(properties), id, updates, now) && Valid()
    {
      properties := UpdatedProperties(properties, id, updates, now);
      persisted := properties;
    }

    /** `deleteProperty`. */
    method DeleteProperty(id: Id)
      modifies this
      ensures properties == DeletedProperties(old(properties), id) && Valid()
    {
      properties := DeletedProperties(properties, id);
      persisted := properties;
    }

    /** `incrementViews`: looks the property up, then updates its view count. */
    method IncrementViews(id: Id, now: Time)
      requires Valid()
      modifies this
      ensures properties == ViewedProperties(old(properties), id, now) && Valid()
    {
      var found := GetPropertyById(properties, id);
      if found.Some? {
        UpdateProperty(id, ViewsPatch(found.value.views), now);
      }
    }
  }
}
