/** The feedback screen: a star rating from 1 to 5 (0 while none is chosen),
    an optional comment, and a thank-you card shown after submitting until a
    delayed reset clears the form. */
module Feedback {
  import opened Common

  /** The number of stars. */
  const StarCount: nat := 5

  /** Star `star` (1 to 5) is drawn filled. */
  predicate StarFilled(star: int, rating: int) {
    star <= rating
  }

  /** The fill of the five stars, left to right. */
  function FilledStars(rating: int): (flags: seq<bool>)
    ensures |flags| == StarCount
  {
    seq(StarCount, k requires 0 <= k < StarCount => StarFilled(k + 1, rating))
  }

  /** The number of `true` entries. */
  function CountTrue(s: seq<bool>): nat {
    if s == [] then 0 else CountTrue(s[..|s| - 1]) + (if s[|s| - 1] then 1 else 0)
  }

  /** Among the first `n` positions, those below `r` number `r` clamped to
      the range 0 to `n`. */
  lemma {:induction false} CountPrefix(n: nat, r: int)
    ensures CountTrue(seq(n, k => k < r)) == if r <= 0 then 0 else if r >= n then n else r
  {
    if n > 0 {
      var s := seq(n, k => k < r);
      assert s[..n - 1] == seq(n - 1, k => k < r);
      CountPrefix(n - 1, r);
    }
  }

  /** The filled stars are the first `rating` ones, so exactly `rating`
      stars are filled. */
  lemma FilledStarsCount(rating: int)
    requires 0 <= rating <= StarCount
    ensures forall k :: 0 <= k < StarCount ==> (FilledStars(rating)[k] <==> k < rating)
    ensures CountTrue(FilledStars(rating)) == rating
  {
    assert FilledStars(rating) == seq(StarCount, k => k < rating);
    CountPrefix(StarCount, rating);
  }

  /** `ratingLabels`, from one star to five. */
  function RatingLabels(language: Language): (labels: seq<string>)
    ensures |labels| == StarCount
  {
    match language
    case En => ["Terrible", "Poor", "Average", "Good", "Excellent"]
    case Hi => ["बहुत खराब", "खराब", "औसत", "अच्छा", "उत्कृष्ट"]
  }

  /** The line under the stars: `ratingLabels[rating - 1]`, shown only once a
      rating is chosen. */
  function RatingLabel(rating: int, language: Language): (r: Option<string>)
    requires 0 <= rating <= StarCount
    ensures r.None? <==> rating == 0
  {
    if rating > 0 then Some(RatingLabels(language)[rating - 1]) else None
  }

  /** In each language the five labels differ, so the label shown names the
      rating. */
  lemma LabelDeterminesRating(r1: int, r2: int, language: Language)
    requires 0 <= r1 <= StarCount && 0 <= r2 <= StarCount
    requires RatingLabel(r1, language) == RatingLabel(r2, language)
    ensures r1 == r2
  {
    var labels := RatingLabels(language);
    if r1 > 0 && r2 > 0 {
      assert labels[r1 - 1] == labels[r2 - 1];
      assert |labels[r1 - 1]| == |labels[r2 - 1]|;
      assert labels[r1 - 1][0] == labels[r2 - 1][0];
    }
  }

  /** The submit button is disabled exactly while no rating is chosen. */
  predicate SubmitDisabled(rating: int) {
    rating == 0
  }

  /** A one-tap rating card below the form. */
  datatype QuickOption = QuickOption(emoji: string, rating: int, name: string)

  const QuickOptions: seq<QuickOption> := [
    QuickOption("😍", 5, "Loved it!"),
    QuickOption("😊", 4, "Good"),
    QuickOption("😐", 3, "Okay")
  ]

  /** The quick cards give star ratings, each a different one, so at most
      one card is highlighted (`rating === option.rating`). */
  lemma QuickOptionsAreRatings()
    ensures forall k :: 0 <= k < |QuickOptions| ==> 1 <= QuickOptions[k].rating <= StarCount
    ensures forall j, k :: 0 <= j < k < |QuickOptions| ==> QuickOptions[j].rating != QuickOptions[k].rating
  {
  }

  // ---------------------------------------------------------------------------

  /** The form's `rating`, `comment` and `submitted` state. */
  class FeedbackForm {
    var rating: int
    var comment: string
    var submitted: bool

    /** The rating is only ever set from a star, a quick card or the reset. */
    ghost predicate Valid()
      reads this
    {
      0 <= rating <= StarCount
    }

    /** The thank-you card replaces the form while `submitted` holds. */
    function ShowsThankYou(): bool
      reads this
    {
      submitted
    }

    constructor ()
      ensures Valid()
      ensures rating == 0 && comment == "" && !submitted
    {
      rating := 0;
      comment := "";
      submitted := false;
    }

    /** Clicking star `star`; the buttons are numbered 1 to 5. */
    method SelectStar(star: int)
      requires 1 <= star <= StarCount
      modifies this
      ensures Valid()
      ensures rating == star
      ensures comment == old(comment) && submitted == old(submitted)
    {
      rating := star;
    }

    /** Clicking quick card `k`. */
    method SelectQuickOption(k: nat)
      requires k < |QuickOptions|
      modifies this
      ensures Valid()
      ensures rating == QuickOptions[k].rating
      ensures comment == old(comment) && submitted == old(submitted)
    {
      QuickOptionsAreRatings();
      rating := QuickOptions[k].rating;
    }

    /** Typing into the comment box. */
    method SetComment(text: string)
      requires Valid()
      modifies this
      ensures Valid()
      ensures comment == text
      ensures rating == old(rating) && submitted == old(submitted)
    {
      comment := text;
    }

    /** `handleSubmit`: without a rating nothing happens; otherwise the form
        shows the thank-you card, keeps the rating and comment, and asks for
        the delayed reset (`resetScheduled`). */
    method HandleSubmit() returns (resetScheduled: bool)
      requires Valid()
      modifies this
      ensures Valid()
      ensures resetScheduled <==> old(rating) != 0
      ensures old(rating) == 0 ==> submitted == old(submitted)
      ensures old(rating) != 0 ==> submitted
      ensures rating == old(rating) && comment == old(comment)
    {
      if rating == 0 {
        return false;
      }
      submitted := true;
      resetScheduled := true;
    }

    /** The timer's reset, 3000 ms after a submit. */
    method ResetAfterDelay()
      modifies this
      ensures Valid()
      ensures rating == 0 && comment == "" && !submitted
    {
      submitted := false;
      rating := 0;
      comment := "";
    }
  }

  /** Submitting with no rating is ignored; after choosing four stars and a
      comment the submit shows the thank-you card; the reset then returns the
      form to its starting state with the submit button disabled again. */
  method SubmitScenario() returns (ignored: bool, thanked: bool, cleared: bool)
    ensures ignored && thanked && cleared
  {
    var form := new FeedbackForm();
    var firstScheduled := form.HandleSubmit();
    ignored := !firstScheduled && !form.ShowsThankYou();
    form.SelectStar(4);
    form.SetComment("Lovely biryani");
    var scheduled := form.HandleSubmit();
    thanked := scheduled && form.ShowsThankYou() && form.rating == 4;
    form.ResetAfterDelay();
    cleared := !form.ShowsThankYou() && SubmitDisabled(form.rating) && form.comment == "";
  }
}
