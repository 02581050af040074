/** The review schema (models/Review.js): its validity predicate and the
    unique compound index that allows one review per (property, user) pair.
    The average-rating aggregation and the save/remove hooks are not part of
    this model. A rating is a `Number`, modelled as a real. */
module ReviewModel {
  import opened Common
  import opened Strings

  const MaxTitleLength := 100
  const MinRating: real := 1.0
  const MaxRating: real := 5.0

  datatype Review = Review(
    reviewId: string, title: string, text: string, rating: real,
    createdAt: int, propertyId: string, userId: string)

  datatype ReviewDraft = ReviewDraft(
    reviewId: Option<string>, title: Option<string>, text: Option<string>, rating: Option<real>,
    createdAt: Option<int>, propertyId: Option<string>, userId: Option<string>)

  /** Defaults for `reviewId` and `createdAt`, and the `trim` setter on the title. */
  function Cast(d: ReviewDraft, freshId: string, now: int): ReviewDraft
  {
    d.(reviewId := if d.reviewId.None? then Some(freshId) else d.reviewId,
       title := if d.title.Some? then Some(Trim(d.title.value)) else None,
       createdAt := if d.createdAt.None? then Some(now) else d.createdAt)
  }

  predicate Complete(d: ReviewDraft)
  {
    && Truthy(d.reviewId)
    && Truthy(d.title) && Utf16Length(d.title.value) <= MaxTitleLength
    && Truthy(d.text)
    && d.rating.Some? && MinRating <= d.rating.value <= MaxRating
    && d.createdAt.Some?
    && Truthy(d.propertyId) && Truthy(d.userId)
  }

  function AsDraft(r: Review): ReviewDraft
  {
    ReviewDraft(Some(r.reviewId), Some(r.title), Some(r.text), Some(r.rating),
      Some(r.createdAt), Some(r.propertyId), Some(r.userId))
  }

  predicate Valid(r: Review)
  {
    Complete(AsDraft(r)) && Trimmed(r.title)
  }

  /** A review document before the unique index is consulted: cast,
      validate, keep exactly the cast values; `None` is the ValidationError. */
  function Build(d: ReviewDraft, freshId: string, now: int): (r: Option<Review>)
    requires freshId != ""
    ensures r.Some? <==> Complete(Cast(d, freshId, now))
    ensures r.Some? ==> Valid(r.value) && AsDraft(r.value) == Cast(d, freshId, now)
    ensures r.Some? ==> MinRating <= r.value.rating <= MaxRating && Utf16Length(r.value.title) <= MaxTitleLength
  {
    var e := Cast(d, freshId, now);
    if !Complete(e) then None
    else Some(Review(e.reviewId.value, e.title.value, e.text.value, e.rating.value,
      e.createdAt.value, e.propertyId.value, e.userId.value))
  }

  /** The rating rule: a rating outside 1..5, or none, is refused. */
  lemma RatingBounds(d: ReviewDraft, freshId: string, now: int)
    requires freshId != ""
    requires d.rating.None? || d.rating.value < MinRating || d.rating.value > MaxRating
    ensures Build(d, freshId, now).None?
  {
  }

  /** The key of the unique compound index. */
  function Key(r: Review): (string, string)
  {
    (r.propertyId, r.userId)
  }

  /** At most one review per (property, user) pair. */
  predicate OnePerPropertyUser(reviews: seq<Review>)
  {
    forall i, j :: 0 <= i < j < |reviews| ==> Key(reviews[i]) != Key(reviews[j])
  }

  /** Saving a review: a ValidationError for an invalid document, a
      duplicate-key failure when the pair already has a review, otherwise
      the collection grows by the new review. */
  function Insert(reviews: seq<Review>, d: ReviewDraft, freshId: string, now: int): (r: Result<seq<Review>>)
    requires freshId != ""
    ensures r.Ok? ==> |r.value| == |reviews| + 1 && r.value[..|reviews|] == reviews
    ensures r.Ok? ==> Some(r.value[|reviews|]) == Build(d, freshId, now)
  {
    match Build(d, freshId, now)
    case None => Err(ValidationError)
    case Some(review) =>
      if exists i :: 0 <= i < |reviews| && Key(reviews[i]) == Key(review)
      then Err(Thrown("E11000 duplicate key error"))
      else Ok(reviews + [review])
  }

  /** Saving keeps the index invariant, and refuses a second review for the
      same pair exactly when the first is already there. */
  lemma {:induction false} InsertKeepsUnique(reviews: seq<Review>, d: ReviewDraft, freshId: string, now: int)
    requires freshId != ""
    requires OnePerPropertyUser(reviews)
    requires Build(d, freshId, now).Some?
    ensures Insert(reviews, d, freshId, now).Ok? ==> OnePerPropertyUser(Insert(reviews, d, freshId, now).value)
    ensures Insert(reviews, d, freshId, now).Ok? <==>
            forall i :: 0 <= i < |reviews| ==> Key(reviews[i]) != Key(Build(d, freshId, now).value)
  {
    var review := Build(d, freshId, now).value;
    var r := Insert(reviews, d, freshId, now);
    if r.Ok? {
      var t := r.value;
      assert t == reviews + [review];
      forall i, j | 0 <= i < j < |t| ensures Key(t[i]) != Key(t[j]) {
        if j < |reviews| {
          assert t[i] == reviews[i] && t[j] == reviews[j];
        } else {
          assert t[j] == review && t[i] == reviews[i];
        }
      }
    }
  }

  /** The key the unique index actually reads. The index is declared on the
      paths `property` and `user`, which the schema does not have, so every
      review is indexed under the same (missing, missing) pair. */
  function IndexedKeyAsWritten(r: Review): (Option<string>, Option<string>)
  {
    (None, None)
  }

  /** Saving a review against the index as declared. */
  function InsertAsWritten(reviews: seq<Review>, d: ReviewDraft, freshId: string, now: int): (r: Result<seq<Review>>)
    requires freshId != ""
    ensures r.Ok? ==> Build(d, freshId, now).Some? && r.value == reviews + [Build(d, freshId, now).value]
  {
    match Build(d, freshId, now)
    case None => Err(ValidationError)
    case Some(review) =>
      if exists i :: 0 <= i < |reviews| && IndexedKeyAsWritten(reviews[i]) == IndexedKeyAsWritten(review)
      then Err(Thrown("E11000 duplicate key error"))
      else Ok(reviews + [review])
  }

  /** As declared, the index admits a valid review only into an empty
      collection: every later save fails with a duplicate key. */
  lemma IndexAsWrittenRefusesNewPair(reviews: seq<Review>, d: ReviewDraft, freshId: string, now: int)
    requires freshId != ""
    requires Build(d, freshId, now).Some?
    ensures InsertAsWritten(reviews, d, freshId, now) ==
      if reviews == [] then Ok([Build(d, freshId, now).value]) else Err(Thrown("E11000 duplicate key error"))
  {
    var review := Build(d, freshId, now).value;
    if reviews != [] {
      assert IndexedKeyAsWritten(reviews[0]) == IndexedKeyAsWritten(review);
    } else {
      assert reviews + [review] == [review];
    }
  }

  /** A review of a pair that has none yet is refused by the index as
      declared whenever any review is stored, yet saved by `Insert`. */
  lemma NewPairRefusedAsWritten(reviews: seq<Review>, d: ReviewDraft, freshId: string, now: int)
    requires freshId != ""
    requires Build(d, freshId, now).Some? && reviews != []
    requires forall i :: 0 <= i < |reviews| ==> Key(reviews[i]) != Key(Build(d, freshId, now).value)
    ensures Insert(reviews, d, freshId, now) == Ok(reviews + [Build(d, freshId, now).value])
    ensures InsertAsWritten(reviews, d, freshId, now).Err?
  {
    IndexAsWrittenRefusesNewPair(reviews, d, freshId, now);
  }
}
