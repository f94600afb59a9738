/** The admin's property moderation page
    (src/pages/admin/AdminPropertiesPage.tsx): every listing, with Approve and
    Reject buttons on the pending ones. */
module AdminPropertiesPage {
  import opened Wrappers
  import opened Types
  import opened Strings
  import Properties
  import Notifications
  import NotificationService
  import Lifecycle

  /** The Approve and Reject buttons are drawn only for pending listings. */
  function DecisionsOffered(p: Property): (r: set<Lifecycle.Decision>)
    ensures r != {} <==> p.status == PropertyStatus.Pending
    ensures r != {} ==> r == {Lifecycle.Approve, Lifecycle.Reject}
  {
    if Lifecycle.PropertyOffered(p.status) then {Lifecycle.Approve, Lifecycle.Reject} else {}
  }

  function ApprovePatch(): PropertyPatch {
    NoPropertyChange.(status := Put(PropertyStatus.Active))
  }

  function RejectPatch(reason: string): PropertyPatch {
    NoPropertyChange.(status := Put(PropertyStatus.Rejected), rejectionReason := Put(Some(reason)))
  }

  /** After approval every listing with that id is active and no longer
      offered for a decision; every other listing is untouched. */
  lemma ApprovedIsDecided(properties: seq<Property>, id: Id, now: Time)
    ensures var r := Properties.UpdatedProperties(properties, id, ApprovePatch(), now);
      (forall p :: p in r && p.id == id ==>
         p.status == PropertyStatus.Active && DecisionsOffered(p) == {}) &&
      (forall i :: 0 <= i < |r| && properties[i].id != id ==> r[i] == properties[i])
  {
    var r := Properties.UpdatedProperties(properties, id, ApprovePatch(), now);
    forall p | p in r && p.id == id ensures p.status == PropertyStatus.Active {
      var i :| 0 <= i < |r| && r[i] == p;
    }
  }

  /** After rejection every listing with that id is rejected, carries the
      reason, and is no longer offered for a decision. */
  lemma RejectedIsDecided(properties: seq<Property>, id: Id, reason: string, now: Time)
    ensures var r := Properties.UpdatedProperties(properties, id, RejectPatch(reason), now);
      (forall p :: p in r && p.id == id ==>
         p.status == PropertyStatus.Rejected && p.rejectionReason == Some(reason) && DecisionsOffered(p) == {}) &&
      (forall i :: 0 <= i < |r| && properties[i].id != id ==> r[i] == properties[i])
  {
    var r := Properties.UpdatedProperties(properties, id, RejectPatch(reason), now);
    forall p | p in r && p.id == id
      ensures p.status == PropertyStatus.Rejected && p.rejectionReason == Some(reason)
    {
      var i :| 0 <= i < |r| && r[i] == p;
    }
  }

  /** `handleApprove(propertyId)`: nothing for an unknown id; otherwise the
      listing becomes active and its agent gets one notification. */
  method HandleApprove(props: Properties.PropertyStore, notes: Notifications.NotificationStore,
                       propertyId: Id, noteId: Id, now: Time)
    requires props.Valid() && notes.Valid()
    modifies props, notes
    ensures props.Valid() && notes.Valid()
    ensures var found := Properties.GetPropertyById(old(props.properties), propertyId);
      if found.None? then
        props.properties == old(props.properties) && notes.notifications == old(notes.notifications)
      else
        props.properties == Properties.UpdatedProperties(old(props.properties), propertyId, ApprovePatch(), now) &&
        notes.notifications == old(notes.notifications) +
          [Notifications.NewNotification(
             NotificationService.Draft(NotificationService.AgentPropertyApproved(found.value.agentId, found.value.title)),
             noteId, now)]
    ensures |notes.notifications| <= |old(notes.notifications)| + 1
    ensures forall n :: n in notes.notifications && n !in old(notes.notifications) ==>
              exists p :: p in old(props.properties) && p.id == propertyId && n.userId == p.agentId
  {
    var found := Properties.GetPropertyById(props.properties, propertyId);
    if found.None? {
      return;
    }
    var property := found.value;
    props.UpdateProperty(propertyId, ApprovePatch(), now);
    var n := NotificationService.Notify(notes, NotificationService.AgentPropertyApproved(property.agentId, property.title), noteId, now);
    assert notes.notifications == old(notes.notifications) + [n];
  }

  /** `handleReject(propertyId)` with the answer `reason` to the prompt:
      nothing for an unknown id or a cancelled or empty answer; otherwise the
      listing becomes rejected with that reason, and its agent is told why. */
  method HandleReject(props: Properties.PropertyStore, notes: Notifications.NotificationStore,
                      propertyId: Id, reason: Option<string>, noteId: Id, now: Time)
    requires props.Valid() && notes.Valid()
    modifies props, notes
    ensures props.Valid() && notes.Valid()
    ensures var found := Properties.GetPropertyById(old(props.properties), propertyId);
      if found.None? || !Truthy(reason) then
        props.properties == old(props.properties) && notes.notifications == old(notes.notifications)
      else
        props.properties == Properties.UpdatedProperties(old(props.properties), propertyId, RejectPatch(reason.value), now) &&
        notes.notifications == old(notes.notifications) +
          [Notifications.NewNotification(
             NotificationService.Draft(NotificationService.AgentPropertyRejected(found.value.agentId, found.value.title, reason.value)),
             noteId, now)]
  {
    var found := Properties.GetPropertyById(props.properties, propertyId);
    if found.None? {
      return;
    }
    var property := found.value;
    if reason.None? || reason.value == "" {
      return;
    }
    props.UpdateProperty(propertyId, RejectPatch(reason.value), now);
    var n := NotificationService.Notify(notes, NotificationService.AgentPropertyRejected(property.agentId, property.title, reason.value), noteId, now);
  }
}
