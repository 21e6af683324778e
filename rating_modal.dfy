/**
 * The star-rating dialog (src/components/modals/RatingModal.tsx): the chosen
 * rating, the star under the pointer and the feedback text, set by the
 * star buttons and the text area and reset by submitting or closing. The
 * parent's `onSubmit` and `onClose` callbacks are recorded, in order, as
 * events.
 */
module RatingModalModel {
  import opened Wrappers
  import Text
  import opened Sequences

  const StarCount := 5

  datatype Event = Submitted(rating: int, feedback: Option<string>) | Closed

  /** `feedback.trim() || undefined`: the trimmed text, or nothing when it is blank. */
  function FeedbackToSend(feedback: string): (r: Option<string>)
    ensures r.None? <==> Text.IsBlank(feedback)
    ensures r.Some? ==> r.value == Text.Trim(feedback)
    ensures r.Some? ==> r.value != "" && |r.value| <= |feedback|
  {
    var t := Text.Trim(feedback);
    if t == "" then None else Some(t)
  }

  /** What is sent is already trimmed: sending it again would send the same text. */
  lemma FeedbackToSendStable(feedback: string)
    requires FeedbackToSend(feedback).Some?
    ensures FeedbackToSend(FeedbackToSend(feedback).value) == FeedbackToSend(feedback)
  {
    Text.TrimIdempotent(feedback);
  }

  /** `hoverRating || rating`: the hovered star while the pointer is on one, else the rating. */
  function DisplayRating(hoverRating: int, rating: int): (d: int)
    ensures hoverRating != 0 ==> d == hoverRating
    ensures hoverRating == 0 ==> d == rating
    ensures 0 <= hoverRating <= StarCount && 0 <= rating <= StarCount ==> 0 <= d <= StarCount
    ensures d == 0 <==> hoverRating == 0 && rating == 0
  {
    if hoverRating != 0 then hoverRating else rating
  }

  predicate StarFilled(star: int, displayRating: int) {
    star <= displayRating
  }

  /** The stars, left to right. */
  const Stars: seq<int> := [1, 2, 3, 4, 5]

  /**
   * The filled stars are the first `d` ones: their number is the displayed
   * rating, and a filled star has only filled stars to its left.
   */
  lemma FilledStarsMatchDisplay(d: int)
    requires 0 <= d <= StarCount
    ensures Count(Stars, (s: int) => StarFilled(s, d)) == d
    ensures forall i, j :: 0 <= i <= j < |Stars| && StarFilled(Stars[j], d) ==> StarFilled(Stars[i], d)
  {
    var p := (s: int) => StarFilled(s, d);
    assert Stars[1..] == [2, 3, 4, 5];
    assert Stars[2..] == [3, 4, 5];
    assert Stars[3..] == [4, 5];
    assert Stars[4..] == [5];
    assert Stars[5..] == [];
    assert Count(Stars[5..], p) == 0;
  }

  /** The submit button is disabled with no rating or while a request is under way. */
  predicate SubmitDisabled(rating: int, isLoading: bool) {
    rating == 0 || isLoading
  }

  /** Within the five stars, the button is enabled exactly once a star is picked and nothing is loading. */
  lemma SubmitEnabledOnceRated(rating: int, isLoading: bool)
    requires 0 <= rating <= StarCount
    ensures !SubmitDisabled(rating, isLoading) <==> 1 <= rating <= StarCount && !isLoading
  {
  }

  class RatingModal {
    var rating: int
    var hoverRating: int
    var feedback: string
    var events: seq<Event>

    /** Both ratings stay within the five stars. */
    ghost predicate Valid()
      reads this
    {
      0 <= rating <= StarCount && 0 <= hoverRating <= StarCount
    }

    constructor ()
      ensures Valid()
      ensures rating == 0 && hoverRating == 0 && feedback == "" && events == []
    {
      rating := 0;
      hoverRating := 0;
      feedback := "";
      events := [];
    }

    /** The stars shown filled at the moment. */
    function Display(): int
      reads this
    {
      DisplayRating(hoverRating, rating)
    }

    /** Clicking star `star` makes it the rating. */
    method ClickStar(star: int)
      requires Valid() && 1 <= star <= StarCount
      modifies this
      ensures Valid()
      ensures rating == star
      ensures hoverRating == old(hoverRating) && feedback == old(feedback) && events == old(events)
    {
      rating := star;
    }

    method HoverStar(star: int)
      requires Valid() && 1 <= star <= StarCount
      modifies this
      ensures Valid()
      ensures hoverRating == star
      ensures rating == old(rating) && feedback == old(feedback) && events == old(events)
    {
      hoverRating := star;
    }

    /** Leaving a star drops the hover, so the display falls back to the rating. */
    method LeaveStar()
      requires Valid()
      modifies this
      ensures Valid()
      ensures hoverRating == 0 && Display() == rating
      ensures rating == old(rating) && feedback == old(feedback) && events == old(events)
    {
      hoverRating := 0;
    }

    method TypeFeedback(text: string)
      requires Valid()
      modifies this
      ensures Valid()
      ensures feedback == text
      ensures rating == old(rating) && hoverRating == old(hoverRating) && events == old(events)
    {
      feedback := text;
    }

    /**
     * `handleSubmit`: with no rating nothing happens; otherwise the rating
     * and the trimmed feedback go to the parent and the form is reset.
     */
    method Submit()
      requires Valid()
      modifies this
      ensures Valid()
      ensures old(rating) == 0 ==>
        rating == 0 && hoverRating == old(hoverRating) && feedback == old(feedback) && events == old(events)
      ensures old(rating) > 0 ==>
        rating == 0 && hoverRating == 0 && feedback == "" &&
        events == old(events) + [Submitted(old(rating), FeedbackToSend(old(feedback)))]
      // A click the disabled button would block sends nothing, and every other click sends.
      ensures SubmitDisabled(old(rating), false) <==> events == old(events)
    {
      if rating > 0 {
        events := events + [Submitted(rating, FeedbackToSend(feedback))];
        rating := 0;
        hoverRating := 0;
        feedback := "";
      }
    }

    /** `handleClose`: the form is reset, then the parent is told. */
    method Close()
      requires Valid()
      modifies this
      ensures Valid()
      ensures rating == 0 && hoverRating == 0 && feedback == ""
      ensures events == old(events) + [Closed]
    {
      rating := 0;
      hoverRating := 0;
      feedback := "";
      events := events + [Closed];
    }
  }
}
