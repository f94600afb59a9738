/** The review store (src/store/reviewStore.ts): customers' reviews of the
    properties they visited, written through to storage on every change. */
module Reviews {
  import opened Wrappers
  import opened Types
  import Seqs

  /** `getReviewById`. */
  function GetReviewById(reviews: seq<Review>, id: Id): (r: Option<Review>)
    ensures r.None? <==> forall v :: v in reviews ==> v.id != id
    ensures r.Some? ==> r.value in reviews && r.value.id == id
    ensures r.Some? ==> r.value == reviews[Seqs.FirstIndex(reviews, (v: Review) => v.id == id)]
  {
    Seqs.Find(reviews, (v: Review) => v.id == id)
  }

  /** `getReviewsByProperty`. */
  function GetReviewsByProperty(reviews: seq<Review>, propertyId: Id): (r: seq<Review>)
    ensures forall v :: v in r <==> v in reviews && v.propertyId == propertyId
    ensures Seqs.IsFilterOf(r, reviews, (v: Review) => v.propertyId == propertyId)
  {
    Seqs.FilterIsFilterOf(reviews, (v: Review) => v.propertyId == propertyId);
    Seqs.Filter(reviews, (v: Review) => v.propertyId == propertyId)
  }

  /** `getReviewsByCustomer`. */
  function GetReviewsByCustomer(reviews: seq<Review>, customerId: Id): (r: seq<Review>)
    ensures forall v :: v in r <==> v in reviews && v.customerId == customerId
    ensures Seqs.IsFilterOf(r, reviews, (v: Review) => v.customerId == customerId)
  {
    Seqs.FilterIsFilterOf(reviews, (v: Review) => v.customerId == customerId);
    Seqs.Filter(reviews, (v: Review) => v.customerId == customerId)
  }

  /** `getReviewByAppointment`: the first review of that visit, absent iff
      there is none. */
  function GetReviewByAppointment(reviews: seq<Review>, appointmentId: Id): (r: Option<Review>)
    ensures r.None? <==> forall v :: v in reviews ==> v.appointmentId != appointmentId
    ensures r.Some? ==> exists k :: (0 <= k < |reviews| && r.value == reviews[k] &&
              reviews[k].appointmentId == appointmentId &&
              forall j :: 0 <= j < k ==> reviews[j].appointmentId != appointmentId)
  {
    var p := (v: Review) => v.appointmentId == appointmentId;
    var r := Seqs.Find(reviews, p);
    if r.Some? then
      assert r.value == reviews[Seqs.FirstIndex(reviews, p)];
      r
    else r
  }

  /** The record `createReview` stores: the rating, visit and comment exactly
      as given (no range or status check), not flagged and not edited. */
  function NewReview(draft: ReviewDraft, id: Id, now: Time): (v: Review)
    ensures !v.flagged && !v.adminEdited
    ensures v.id == id && v.createdAt == now && v.updatedAt == now
    ensures v.rating == draft.rating && v.appointmentId == draft.appointmentId
    ensures v.propertyId == draft.propertyId && v.customerId == draft.customerId
    ensures v.comment == draft.comment && v.flagReason == draft.flagReason
    ensures v.adminNote == draft.adminNote
  {
    Review(id, draft.propertyId, draft.customerId, draft.appointmentId, draft.rating,
           draft.comment, false, draft.flagReason, false, draft.adminNote, now, now)
  }

  function Stamped(v: Review, updates: ReviewPatch, now: Time): Review {
    MergeReview(v, updates).(updatedAt := now)
  }

  /** The list after `updateReview(id, updates)`. */
  function UpdatedReviews(reviews: seq<Review>, id: Id, updates: ReviewPatch, now: Time): (r: seq<Review>)
    ensures |r| == |reviews|
    ensures forall i :: 0 <= i < |r| && reviews[i].id == id ==> r[i] == Stamped(reviews[i], updates, now)
    ensures forall i :: 0 <= i < |r| && reviews[i].id != id ==> r[i] == reviews[i]
    ensures (forall v :: v in reviews ==> v.id != id) ==> r == reviews
  {
    Seqs.MapWhere(reviews, (v: Review) => v.id == id, (v: Review) => Stamped(v, updates, now))
  }

  /** The list after `deleteReview(id)`. */
  function DeletedReviews(reviews: seq<Review>, id: Id): (r: seq<Review>)
    ensures forall v :: v in r <==> v in reviews && v.id != id
    ensures Seqs.IsFilterOf(r, reviews, (v: Review) => v.id != id)
  {
    Seqs.FilterIsFilterOf(reviews, (v: Review) => v.id != id);
    Seqs.Filter(reviews, (v: Review) => v.id != id)
  }

  /** The update `flagReview` sends. */
  function FlagPatch(reason: string): ReviewPatch {
    NoReviewChange.(flagged := Put(true), flagReason := Put(Some(reason)))
  }

  /** `flagReview(id, reason)` flags the matching records with that reason and
      changes no other record. */
  lemma FlaggedReviews(reviews: seq<Review>, id: Id, reason: string, now: Time)
    ensures var r := UpdatedReviews(reviews, id, FlagPatch(reason), now);
      |r| == |reviews| &&
      (forall i :: 0 <= i < |r| && reviews[i].id == id ==>
         r[i] == reviews[i].(flagged := true, flagReason := Some(reason), updatedAt := now)) &&
      (forall i :: 0 <= i < |r| && reviews[i].id != id ==> r[i] == reviews[i])
  {
  }

  class ReviewStore {
    var reviews: seq<Review>
    /** The copy under the reviews storage key. */
    ghost var persisted: seq<Review>

    ghost predicate Valid()
      reads this
    {
      persisted == reviews
    }

    constructor ()
      ensures reviews == [] && Valid()
    {
      reviews := [];
      persisted := [];
    }

    /** `initializeReviews`: loads storage; there are no demo reviews. */
    method InitializeReviews(stored: seq<Review>)
      modifies this
      ensures reviews == stored && Valid()
    {
      reviews := stored;
      persisted := stored;
    }

    /** `createReview`: appends one record and returns it. */
    method CreateReview(draft: ReviewDraft, id: Id, now: Time) returns (v: Review)
      modifies this
      ensures v == NewReview(draft, id, now)
      ensures reviews == old(reviews) + [v] && Valid()
    {
      v := NewReview(draft, id, now);
      reviews := reviews + [v];
      persisted := reviews;
    }

    /** `updateReview`. */
    method UpdateReview(id: Id, updates: ReviewPatch, now: Time)
      modifies this
      ensures reviews == UpdatedReviews(old(reviews), id, updates, now) && Valid()
    {
      reviews := UpdatedReviews(reviews, id, updates, now);
      persisted := reviews;
    }

    /** `deleteReview`. */
    method DeleteReview(id: Id)
      modifies this
      ensures reviews == DeletedReviews(old(reviews), id) && Valid()
    {
      reviews := DeletedReviews(reviews, id);
      persisted := reviews;
    }

    /** `flagReview`: an update setting the flag and its reason. */
    method FlagReview(id: Id, reason: string, now: Time)
      modifies this
      ensures reviews == UpdatedReviews(old(reviews), id, FlagPatch(reason), now) && Valid()
    {
      UpdateReview(id, FlagPatch(reason), now);
    }
  }
}
