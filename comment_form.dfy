/** The review form: a text area, five rating radios and a submit button.
    Its state is the typed comment, the chosen rating and a submitting flag;
    the `onSubmit` callback it is given is seen as the list of reviews it was
    called with. */
module CommentFormModel {

  /** The scores the rating radios offer, in display order. */
  const RatingScores: seq<int> := [5, 4, 3, 2, 1]

  /** The shortest comment the submit button accepts. */
  const MinCommentLength := 50

  /** One call of `onSubmit(comment, rating)`. */
  datatype Review = Review(comment: string, rating: int)

  /** The form's state together with every review handed to `onSubmit` so far. */
  datatype Form = Form(comment: string, rating: int, isSubmitting: bool, sent: seq<Review>)

  /** The submit button's `disabled` expression. */
  predicate SubmitDisabled(comment: string, rating: int, isSubmitting: bool)
  {
    isSubmitting || |comment| < MinCommentLength || rating == 0
  }

  /** Whether the submit button is enabled. For any rating the radios can
      set, it is enabled exactly when nothing is being submitted and the
      review the form holds is one it may send: the help text's 50
      characters and a chosen rating. */
  predicate SubmitEnabled(f: Form)
    ensures f.rating == 0 || f.rating in RatingScores ==>
      (SubmitEnabled(f) <==> !f.isSubmitting && Acceptable(Review(f.comment, f.rating)))
  {
    !SubmitDisabled(f.comment, f.rating, f.isSubmitting)
  }

  /** The scores among `scores` whose radio is checked for `rating`. */
  function CheckedAmong(scores: seq<int>, rating: int): (checked: seq<int>)
    ensures forall s :: s in checked ==> s == rating
    ensures |checked| == multiset(scores)[rating]
  {
    if scores == [] then []
    else
      assert scores == [scores[0]] + scores[1..];
      (if scores[0] == rating then [scores[0]] else []) + CheckedAmong(scores[1..], rating)
  }

  /** The radios rendered as checked: the one whose score is the rating when
      the rating is one of the offered scores, and none otherwise. */
  function CheckedScores(rating: int): (checked: seq<int>)
    ensures checked == if rating in RatingScores then [rating] else []
  {
    assert multiset(RatingScores)[rating] == if rating in RatingScores then 1 else 0;
    var r := CheckedAmong(RatingScores, rating);
    assert |r| == 1 ==> r[0] in r;
    r
  }

  /** The state the form mounts with: nothing typed, no rating, not submitting.
      Its submit button is disabled. */
  function Initial(): (f: Form)
    ensures !SubmitEnabled(f) && f.sent == []
  {
    Form("", 0, false, [])
  }

  /** `handleCommentChange`: the typed text replaces the comment; the rating
      and the submitting flag are left alone. */
  function CommentChanged(f: Form, text: string): (g: Form)
    ensures g.comment == text
    ensures g.rating == f.rating && g.isSubmitting == f.isSubmitting && g.sent == f.sent
  {
    f.(comment := text)
  }

  /** `handleRatingChange` for the radio of `score`: that radio becomes the
      only one checked, and the comment is left alone. */
  function RatingChanged(f: Form, score: int): (g: Form)
    requires score in RatingScores
    ensures CheckedScores(g.rating) == [score]
    ensures g.comment == f.comment && g.isSubmitting == f.isSubmitting && g.sent == f.sent
  {
    f.(rating := score)
  }

  /** `handleSubmit`: `onSubmit` is called once, with the comment and rating
      held before the reset, and the form is then cleared, which disables the
      button again. No validity check is made here; the guard lives only in
      the button's `disabled` expression. */
  function Submitted(f: Form): (g: Form)
    ensures |g.sent| == |f.sent| + 1 && g.sent[..|f.sent|] == f.sent
    ensures g.sent[|f.sent|] == Review(f.comment, f.rating)
    ensures g == Initial().(sent := g.sent) && !SubmitEnabled(g)
  {
    Form("", 0, false, f.sent + [Review(f.comment, f.rating)])
  }

  // ---------------------------------------------------------------------------
  // Runs of user events

  /** What the user can do with the form. */
  datatype FormEvent = TypeComment(text: string) | PickRating(score: int) | PressSubmit

  /** The radios only ever report one of the offered scores. */
  predicate FromRadios(e: FormEvent)
  {
    e.PickRating? ==> e.score in RatingScores
  }

  function Apply(f: Form, e: FormEvent): Form
    requires FromRadios(e)
  {
    match e
    case TypeComment(text) => CommentChanged(f, text)
    case PickRating(score) => RatingChanged(f, score)
    case PressSubmit => Submitted(f)
  }

  /** The form after the events, in order. */
  function Run(f: Form, events: seq<FormEvent>): Form
    requires forall i :: 0 <= i < |events| ==> FromRadios(events[i])
    decreases |events|
  {
    if events == [] then f else Run(Apply(f, events[0]), events[1..])
  }

  /** Every press of submit in the run happens while the button is enabled
      (a disabled button cannot be pressed). */
  predicate OnlyEnabledPresses(f: Form, events: seq<FormEvent>)
    requires forall i :: 0 <= i < |events| ==> FromRadios(events[i])
    decreases |events|
  {
    events == []
    || ((events[0].PressSubmit? ==> SubmitEnabled(f)) && OnlyEnabledPresses(Apply(f, events[0]), events[1..]))
  }

  /** A review the form can legitimately send: at least 50 characters and a
      rating between 1 and 5. */
  predicate Acceptable(r: Review)
  {
    |r.comment| >= MinCommentLength && 1 <= r.rating <= 5
  }

  /** Starting from the mounted form, every review a run hands to `onSubmit`
      through the enabled button is acceptable: the button's guard is enough
      to keep short comments and missing ratings from ever being sent. */
  lemma {:induction false} EnabledRunsSendAcceptable(f: Form, events: seq<FormEvent>)
    requires forall i :: 0 <= i < |events| ==> FromRadios(events[i])
    requires f.rating == 0 || f.rating in RatingScores
    requires forall r :: r in f.sent ==> Acceptable(r)
    requires OnlyEnabledPresses(f, events)
    ensures var g := Run(f, events);
      (g.rating == 0 || g.rating in RatingScores) && forall r :: r in g.sent ==> Acceptable(r)
    decreases |events|
  {
    if events != [] {
      var g := Apply(f, events[0]);
      if events[0].PressSubmit? {
        assert g.sent == f.sent + [Review(f.comment, f.rating)];
      }
      EnabledRunsSendAcceptable(g, events[1..]);
    }
  }

  /** Each press of submit calls `onSubmit` once: a run sends exactly as many
      reviews as it has presses. */
  lemma {:induction false} OneReviewPerPress(f: Form, events: seq<FormEvent>)
    requires forall i :: 0 <= i < |events| ==> FromRadios(events[i])
    ensures |Run(f, events).sent| == |f.sent| + Presses(events)
    decreases |events|
  {
    if events != [] {
      OneReviewPerPress(Apply(f, events[0]), events[1..]);
    }
  }

  function Presses(events: seq<FormEvent>): nat
  {
    if events == [] then 0 else (if events[0].PressSubmit? then 1 else 0) + Presses(events[1..])
  }

  // ---------------------------------------------------------------------------
  // The component

  /** The mounted form component. */
  class CommentForm {
    var comment: string
    var rating: int
    var isSubmitting: bool
    /** The reviews `onSubmit` was called with, oldest first. */
    var sent: seq<Review>

    function State(): Form
      reads this
    {
      Form(comment, rating, isSubmitting, sent)
    }

    /** Whether the submit button is enabled now. */
    function IsSubmitEnabled(): (enabled: bool)
      reads this
      ensures rating == 0 || rating in RatingScores ==>
        (enabled <==> !isSubmitting && Acceptable(Review(comment, rating)))
    {
      SubmitEnabled(State())
    }

    constructor ()
      ensures State() == Initial()
    {
      comment, rating, isSubmitting, sent := "", 0, false, [];
    }

    method HandleCommentChange(text: string)
      modifies this
      ensures State() == CommentChanged(old(State()), text)
    {
      comment := text;
    }

    method HandleRatingChange(score: int)
      requires score in RatingScores
      modifies this
      ensures State() == RatingChanged(old(State()), score)
    {
      ghost var before := State();
      rating := score;
      assert State() == before.(rating := score);
    }

    method HandleSubmit()
      modifies this
      ensures State() == Submitted(old(State()))
    {
      isSubmitting := true;
      sent := sent + [Review(comment, rating)];
      comment := "";
      rating := 0;
      isSubmitting := false;
    }
  }
}
