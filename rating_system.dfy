/** The star widget of a recipe page
    (web/src/components/recipes/RatingSystem.tsx): the read-only row for the
    average, the count label, and the interactive row with which a signed-in
    user rates. */
module RatingSystem {
  import opened Wrappers

  const StarCount := 5

  function Clamp(x: int, lo: int, hi: int): (r: int)
    requires lo <= hi
    ensures lo <= r <= hi
    ensures lo <= x <= hi ==> r == x
  {
    if x < lo then lo else if x > hi then hi else x
  }

  /** `renderStars(rating)`: star `k` (1..5) is drawn filled when
      `k <= rating`, so the filled stars are the first
      `Clamp(rating, 0, 5)` ones. */
  function Stars(rating: int): (filled: seq<bool>)
    ensures |filled| == StarCount
    ensures forall i :: 0 <= i < StarCount ==> (filled[i] <==> i < Clamp(rating, 0, StarCount))
  {
    seq(StarCount, i requires 0 <= i < StarCount => i + 1 <= rating)
  }

  /** `Math.round`: the nearest integer, halves rounded up. */
  function Round(x: real): (n: int)
    ensures n as real - 0.5 <= x < n as real + 0.5
  {
    (x + 0.5).Floor
  }

  /** The read-only row drawn for the average rating. */
  function SummaryStars(averageRating: real): (filled: seq<bool>)
    ensures |filled| == StarCount
    ensures forall i :: 0 <= i < StarCount ==>
      (filled[i] <==> (i + 1) as real - 0.5 <= averageRating)
  {
    Stars(Round(averageRating))
  }

  /** `hoveredRating || currentRating || 0`: JavaScript's `||` skips 0 and a
      missing value. */
  function FillThreshold(hoveredRating: int, currentRating: Option<int>): (t: int)
    ensures hoveredRating != 0 ==> t == hoveredRating
    ensures hoveredRating == 0 && currentRating.Some? && currentRating.value != 0 ==> t == currentRating.value
    ensures hoveredRating == 0 && (currentRating.None? || currentRating.value == 0) ==> t == 0
  {
    if hoveredRating != 0 then hoveredRating
    else if currentRating.Some? && currentRating.value != 0 then currentRating.value
    else 0
  }

  /** The interactive row: star `k` is filled when `k` is at most the fill
      threshold. */
  function InteractiveStars(hoveredRating: int, currentRating: Option<int>): (filled: seq<bool>)
    ensures |filled| == StarCount
    ensures forall i :: 0 <= i < StarCount ==> (filled[i] <==> i + 1 <= FillThreshold(hoveredRating, currentRating))
  {
    Stars(FillThreshold(hoveredRating, currentRating))
  }

  /** While star `k` is hovered exactly the first `k` stars are filled,
      whatever the current rating; with nothing hovered the row shows the
      current rating, or no star at all. */
  lemma InteractiveRowFollowsHover(k: int, currentRating: Option<int>)
    requires 0 <= k <= StarCount
    ensures forall i :: 0 <= i < StarCount ==> (InteractiveStars(k, currentRating)[i] <==> (i < k || (k == 0 && currentRating.Some? && i < currentRating.value)))
  {
    var filled := InteractiveStars(k, currentRating);
    forall i | 0 <= i < StarCount
      ensures filled[i] <==> (i < k || (k == 0 && currentRating.Some? && i < currentRating.value))
    {
      assert filled[i] <==> i + 1 <= FillThreshold(k, currentRating);
    }
  }

  /** "rating" or "ratings" after the count. */
  function CountLabel(totalRatings: int): (word: string)
    ensures word == "rating" <==> totalRatings == 1
    ensures word == "ratings" <==> totalRatings != 1
  {
    if totalRatings != 1 then "ratings" else "rating"
  }

  /** The heading above the interactive row: `currentRating` is truthy when
      present and non-zero. */
  function Heading(currentRating: Option<int>): (h: string)
    ensures h == "Update your rating" <==> currentRating.Some? && currentRating.value != 0
    ensures h == "Rate this recipe" <==> !(currentRating.Some? && currentRating.value != 0)
  {
    if currentRating.Some? && currentRating.value != 0 then "Update your rating" else "Rate this recipe"
  }

  /** The component's `hoveredRating` and `isSubmitting` state. The request
      to the server is split at its `await`: `HandleRating` runs up to the
      call and returns the score it sends; `Settle` is the `finally`. */
  class Widget {
    var hoveredRating: int
    var isSubmitting: bool

    ghost predicate Valid()
      reads this
    {
      0 <= hoveredRating <= StarCount
    }

    constructor ()
      ensures Valid() && hoveredRating == 0 && !isSubmitting
    {
      hoveredRating := 0;
      isSubmitting := false;
    }

    /** `onMouseEnter` of star `starNumber`. */
    method MouseEnter(starNumber: int)
      requires Valid() && 1 <= starNumber <= StarCount
      modifies this
      ensures Valid() && hoveredRating == starNumber && isSubmitting == old(isSubmitting)
    {
      hoveredRating := starNumber;
    }

    /** `onMouseLeave` of any star. */
    method MouseLeave()
      requires Valid()
      modifies this
      ensures Valid() && hoveredRating == 0 && isSubmitting == old(isSubmitting)
    {
      hoveredRating := 0;
    }

    /** `handleRating(rating)` up to the request: without a signed-in user
      nothing is sent and nothing changes. */
    method HandleRating(rating: int, signedIn: bool) returns (sent: Option<int>)
      requires Valid()
      modifies this
      ensures Valid() && hoveredRating == old(hoveredRating)
      ensures !signedIn ==> sent.None? && isSubmitting == old(isSubmitting)
      ensures signedIn ==> sent == Some(rating) && isSubmitting
    {
      if !signedIn {
        sent := None;
        return;
      }
      isSubmitting := true;
      sent := Some(rating);
    }

    /** A click on interactive star `starNumber`; the stars are disabled
      while a submission is in flight. */
    method Click(starNumber: int, signedIn: bool) returns (sent: Option<int>)
      requires Valid() && 1 <= starNumber <= StarCount
      modifies this
      ensures Valid() && hoveredRating == old(hoveredRating)
      ensures sent.Some? ==> 1 <= sent.value <= StarCount && sent.value == starNumber
      ensures sent.Some? <==> signedIn && !old(isSubmitting)
      ensures sent.Some? ==> isSubmitting
      ensures sent.None? ==> isSubmitting == old(isSubmitting)
    {
      if isSubmitting {
        sent := None;
        return;
      }
      sent := HandleRating(starNumber, signedIn);
    }

    /** The `finally` after the request settles, successfully or not;
      `onRatingUpdate` is called only on success. */
    method Settle(succeeded: bool) returns (refresh: bool)
      requires Valid()
      modifies this
      ensures Valid() && hoveredRating == old(hoveredRating)
      ensures !isSubmitting
      ensures refresh == succeeded
    {
      isSubmitting := false;
      refresh := succeeded;
    }
  }
}
