/** The admin's review moderation page
    (src/pages/admin/ReviewModerationPage.tsx): four filter tabs, a search
    box, the header counts, and the flag, unflag, edit and delete actions. */
module ReviewModerationPage {
  import opened Wrappers
  import opened Types
  import opened Strings
  import Seqs
  import Reviews
  import Properties
  import Auth

  /** The filter tabs. */
  datatype ReviewFilter = All | Flagged | Recent | LowRated

  /** How many reviews the `recent` tab shows. */
  const RecentLimit := 20

  /** The `recent` tab: the reviews sorted newest first, cut to the first
      twenty.  These are the twenty newest: no review left out is newer than
      one shown. */
  function Newest(reviews: seq<Review>): (r: seq<Review>)
    ensures |r| == if |reviews| <= RecentLimit then |reviews| else RecentLimit
    ensures Seqs.SortedDesc(r, (v: Review) => v.createdAt)
    ensures multiset(r) <= multiset(reviews)
    ensures |reviews| <= RecentLimit ==> multiset(r) == multiset(reviews)
    ensures forall x, y :: x in r && y in multiset(reviews) - multiset(r) ==> x.createdAt >= y.createdAt
  {
    var s := Seqs.SortDesc(reviews, (v: Review) => v.createdAt);
    var r := Seqs.Take(s, RecentLimit);
    NewestAreFirst(s, r);
    r
  }

  /** Cutting a list sorted newest first keeps the newest elements. */
  lemma NewestAreFirst(s: seq<Review>, r: seq<Review>)
    requires Seqs.SortedDesc(s, (v: Review) => v.createdAt)
    requires r == Seqs.Take(s, RecentLimit)
    ensures Seqs.SortedDesc(r, (v: Review) => v.createdAt)
    ensures multiset(r) <= multiset(s)
    ensures |s| <= RecentLimit ==> multiset(r) == multiset(s)
    ensures forall x, y :: x in r && y in multiset(s) - multiset(r) ==> x.createdAt >= y.createdAt
  {
    if |s| > RecentLimit {
      var rest := s[RecentLimit..];
      SplitMultiset(s, r, rest);
      forall x, y | x in r && y in multiset(s) - multiset(r) ensures x.createdAt >= y.createdAt {
        assert y in rest;
        OlderBehind(s, r, rest, x, y);
      }
    }
  }

  lemma SplitMultiset(s: seq<Review>, r: seq<Review>, rest: seq<Review>)
    requires s == r + rest
    ensures multiset(r) <= multiset(s)
    ensures multiset(s) - multiset(r) == multiset(rest)
  {
    assert multiset(s) == multiset(r) + multiset(rest);
  }

  lemma OlderBehind(s: seq<Review>, r: seq<Review>, rest: seq<Review>, x: Review, y: Review)
    requires Seqs.SortedDesc(s, (v: Review) => v.createdAt)
    requires s == r + rest && x in r && y in rest
    ensures x.createdAt >= y.createdAt
  {
    var i :| 0 <= i < |r| && r[i] == x;
    var j :| 0 <= j < |rest| && rest[j] == y;
    assert s[i] == x && s[|r| + j] == y;
  }

  predicate IsLowRated(v: Review) {
    v.rating <= 2
  }

  /** The reviews the selected tab keeps, before the search. */
  function FilterReviews(reviews: seq<Review>, f: ReviewFilter): (r: seq<Review>)
    ensures f.All? ==> r == reviews
    ensures f.Flagged? ==> Seqs.IsFilterOf(r, reviews, (v: Review) => v.flagged)
    ensures f.LowRated? ==> Seqs.IsFilterOf(r, reviews, (v: Review) => IsLowRated(v))
    ensures f.Recent? ==> r == Newest(reviews)
    ensures multiset(r) <= multiset(reviews)
  {
    match f
    case All => reviews
    case Flagged =>
      Seqs.FilterIsFilterOf(reviews, (v: Review) => v.flagged);
      Seqs.Filter(reviews, (v: Review) => v.flagged)
    case Recent => Newest(reviews)
    case LowRated =>
      Seqs.FilterIsFilterOf(reviews, (v: Review) => IsLowRated(v));
      Seqs.Filter(reviews, (v: Review) => IsLowRated(v))
  }

  /** The search: the title of the reviewed property, the name of the
      reviewer or the comment contains the query, ignoring case.  A missing
      property or reviewer matches nothing. */
  predicate ReviewMatches(v: Review, properties: seq<Property>, users: seq<User>, query: string) {
    var p := Properties.GetPropertyById(properties, v.propertyId);
    var c := Auth.FindUser(users, v.customerId);
    (p.Some? && ContainsIgnoringCase(p.value.title, query)) ||
    (c.Some? && ContainsIgnoringCase(c.value.name, query)) ||
    ContainsIgnoringCase(v.comment, query)
  }

  /** `filteredReviews`: the tab's reviews, then those the search matches;
      an empty query keeps them all. */
  function FilteredReviews(reviews: seq<Review>, properties: seq<Property>, users: seq<User>,
                           f: ReviewFilter, query: string): (r: seq<Review>)
    ensures query == "" ==> r == FilterReviews(reviews, f)
    ensures query != "" ==>
              Seqs.IsFilterOf(r, FilterReviews(reviews, f), (v: Review) => ReviewMatches(v, properties, users, query))
    ensures forall v :: v in r ==> v in reviews
  {
    var tab := FilterReviews(reviews, f);
    assert forall v :: v in tab ==> v in multiset(tab);
    if query == "" then tab
    else
      Seqs.FilterIsFilterOf(tab, (v: Review) => ReviewMatches(v, properties, users, query));
      Seqs.Filter(tab, (v: Review) => ReviewMatches(v, properties, users, query))
  }

  /** The cards drawn: a review whose property or reviewer is missing is
      skipped. */
  function RenderedReviews(shown: seq<Review>, properties: seq<Property>, users: seq<User>): (r: seq<Review>)
    ensures forall v :: v in r <==>
              v in shown && Properties.GetPropertyById(properties, v.propertyId).Some? &&
              Auth.FindUser(users, v.customerId).Some?
    ensures Seqs.IsFilterOf(r, shown, (v: Review) => Properties.GetPropertyById(properties, v.propertyId).Some? &&
                                                     Auth.FindUser(users, v.customerId).Some?)
  {
    Seqs.FilterIsFilterOf(shown, (v: Review) => Properties.GetPropertyById(properties, v.propertyId).Some? &&
                                                 Auth.FindUser(users, v.customerId).Some?);
    Seqs.Filter(shown, (v: Review) => Properties.GetPropertyById(properties, v.propertyId).Some? &&
                                      Auth.FindUser(users, v.customerId).Some?)
  }

  /** The header counts (the average rating is left out). */
  datatype ReviewStats = ReviewStats(total: nat, flagged: nat)

  function Stats(reviews: seq<Review>): (s: ReviewStats)
    ensures s.total == |reviews|
    ensures s.flagged == Seqs.Count(reviews, (v: Review) => v.flagged)
    ensures s.flagged <= s.total
  {
    Seqs.FilterLength(reviews, (v: Review) => v.flagged);
    ReviewStats(|reviews|, |Seqs.Filter(reviews, (v: Review) => v.flagged)|)
  }

  /** The update `handleUnflag` sends. */
  function UnflagPatch(): ReviewPatch {
    NoReviewChange.(flagged := Put(false), flagReason := Put(None))
  }

  /** The update `handleEdit` sends: the new comment, the edited mark, and
      the note only when one was typed. */
  function EditPatch(newComment: string, adminNote: Option<string>): ReviewPatch {
    NoReviewChange.(comment := Put(newComment), adminEdited := Put(true),
                    adminNote := Put(if Truthy(adminNote) then adminNote else None))
  }

  /** Unflagging undoes flagging: a review that was not flagged comes back
      as it was, save for its update time. */
  lemma UnflagUndoesFlag(reviews: seq<Review>, id: Id, reason: string, t1: Time, t2: Time)
    requires forall v :: v in reviews && v.id == id ==> !v.flagged && v.flagReason.None?
    ensures var r := Reviews.UpdatedReviews(Reviews.UpdatedReviews(reviews, id, Reviews.FlagPatch(reason), t1),
                                            id, UnflagPatch(), t2);
      |r| == |reviews| &&
      (forall i :: 0 <= i < |r| && reviews[i].id == id ==> r[i] == reviews[i].(updatedAt := t2)) &&
      (forall i :: 0 <= i < |r| && reviews[i].id != id ==> r[i] == reviews[i])
  {
    var r := Reviews.UpdatedReviews(Reviews.UpdatedReviews(reviews, id, Reviews.FlagPatch(reason), t1),
                                    id, UnflagPatch(), t2);
    forall i | 0 <= i < |r| && reviews[i].id == id ensures r[i] == reviews[i].(updatedAt := t2) {
      assert reviews[i] in reviews;
    }
  }

  /** An edit marks the review as edited by an admin and replaces its
      comment and note, keeping its rating, its flag and its authorship;
      other reviews are untouched. */
  lemma EditKeepsRatingAndFlag(reviews: seq<Review>, id: Id, newComment: string, adminNote: Option<string>, now: Time)
    ensures var r := Reviews.UpdatedReviews(reviews, id, EditPatch(newComment, adminNote), now);
      |r| == |reviews| &&
      (forall i :: 0 <= i < |r| && reviews[i].id == id ==>
         r[i].comment == newComment && r[i].adminEdited &&
         (r[i].adminNote.Some? <==> Truthy(adminNote)) &&
         r[i].rating == reviews[i].rating && r[i].flagged == reviews[i].flagged &&
         r[i].customerId == reviews[i].customerId && r[i].propertyId == reviews[i].propertyId) &&
      (forall i :: 0 <= i < |r| && reviews[i].id != id ==> r[i] == reviews[i])
  {
  }

  /** Neither an edit nor any other update that leaves `flagged` alone moves
      the flagged count in the header. */
  lemma {:induction false} EditKeepsFlaggedCount(reviews: seq<Review>, id: Id, newComment: string,
                                                 adminNote: Option<string>, now: Time)
    ensures Seqs.Count(Reviews.UpdatedReviews(reviews, id, EditPatch(newComment, adminNote), now), (v: Review) => v.flagged)
         == Seqs.Count(reviews, (v: Review) => v.flagged)
    decreases |reviews|
  {
    var r := Reviews.UpdatedReviews(reviews, id, EditPatch(newComment, adminNote), now);
    if reviews != [] {
      EditKeepsFlaggedCount(reviews[1..], id, newComment, adminNote, now);
      assert r[1..] == Reviews.UpdatedReviews(reviews[1..], id, EditPatch(newComment, adminNote), now);
    }
  }

  /** `handleFlag(reviewId)` with the answer `reason` to the prompt: the
      review is flagged with that reason unless the prompt was cancelled or
      left empty. */
  method HandleFlag(store: Reviews.ReviewStore, reviewId: Id, reason: Option<string>, now: Time)
    requires store.Valid()
    modifies store
    ensures store.Valid()
    ensures store.reviews == if Truthy(reason)
                             then Reviews.UpdatedReviews(old(store.reviews), reviewId, Reviews.FlagPatch(reason.value), now)
                             else old(store.reviews)
  {
    if reason.Some? && reason.value != "" {
      store.FlagReview(reviewId, reason.value, now);
    }
  }

  /** `handleUnflag(reviewId)`: the flag and its reason are cleared. */
  method HandleUnflag(store: Reviews.ReviewStore, reviewId: Id, now: Time)
    requires store.Valid()
    modifies store
    ensures store.Valid()
    ensures store.reviews == Reviews.UpdatedReviews(old(store.reviews), reviewId, UnflagPatch(), now)
  {
    store.UpdateReview(reviewId, UnflagPatch(), now);
  }

  /** `handleEdit(reviewId)` with the answers `newComment` and `adminNote` to
      the two prompts: nothing for an unknown review, or for a cancelled,
      empty or unchanged comment; otherwise the comment, the edited mark and
      the note are stored. */
  method HandleEdit(store: Reviews.ReviewStore, reviewId: Id, newComment: Option<string>,
                    adminNote: Option<string>, now: Time)
    requires store.Valid()
    modifies store
    ensures store.Valid()
    ensures var v := Reviews.GetReviewById(old(store.reviews), reviewId);
      store.reviews == if v.Some? && Truthy(newComment) && newComment.value != v.value.comment
                       then Reviews.UpdatedReviews(old(store.reviews), reviewId, EditPatch(newComment.value, adminNote), now)
                       else old(store.reviews)
  {
    var v := Reviews.GetReviewById(store.reviews, reviewId);
    if v.None? {
      return;
    }
    if newComment.Some? && newComment.value != "" && newComment.value != v.value.comment {
      store.UpdateReview(reviewId, EditPatch(newComment.value, adminNote), now);
    }
  }

  /** `handleDelete(reviewId)` with the answer `confirmed` to the dialog. */
  method HandleDelete(store: Reviews.ReviewStore, reviewId: Id, confirmed: bool)
    requires store.Valid()
    modifies store
    ensures store.Valid()
    ensures store.reviews == if confirmed then Reviews.DeletedReviews(old(store.reviews), reviewId)
                             else old(store.reviews)
  {
    if confirmed {
      store.DeleteReview(reviewId);
    }
  }
}
