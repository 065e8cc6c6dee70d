/**
 * The booth-rating form: five stars, optional company, comment and photo, and the guarded
 * submit that resets the form on success and keeps it on failure.
 */
module Rate {
  import opened Wrappers
  import opened Translations
  import Server

  /** The form's state cells. The photo is a data URL, or "" when there is none. */
  datatype RateState = RateState(
    rating: nat, comment: string, photo: string, company: string,
    submitting: bool, showSuccess: bool)

  function Initial(): RateState {
    RateState(0, "", "", "", false, false)
  }

  /** At most five stars are ever selected. */
  predicate Valid(s: RateState) {
    s.rating <= 5
  }

  /** A star button, 1 to 5. */
  function PressStar(s: RateState, star: nat): (r: RateState)
    requires 1 <= star <= 5
    ensures r.rating == star && r.(rating := s.rating) == s
  {
    s.(rating := star)
  }

  /** Star j (1 to 5) is drawn filled. */
  predicate StarFilled(rating: nat, j: int) {
    j <= rating
  }

  /** The five stars as drawn, true for a filled one. */
  function Stars(rating: nat): (r: seq<bool>)
    ensures |r| == 5
    ensures forall k :: 0 <= k < 5 ==> (r[k] <==> StarFilled(rating, k + 1))
  {
    seq(5, k => StarFilled(rating, k + 1))
  }

  /** With a rating of n the first n stars are filled and the others outlined. */
  lemma StarsShowRating(n: nat)
    requires n <= 5
    ensures Stars(n) == seq(n, _ => true) + seq(5 - n, _ => false)
  {
    var lhs := Stars(n);
    var rhs := seq(n, _ => true) + seq(5 - n, _ => false);
    assert forall k :: 0 <= k < 5 ==> lhs[k] == rhs[k];
  }

  /** After pressing star i exactly the stars 1 to i are filled. */
  lemma PressedStarFillsUpToIt(s: RateState, i: nat, j: nat)
    requires 1 <= i <= 5 && 1 <= j <= 5
    ensures StarFilled(PressStar(s, i).rating, j) <==> j <= i
  {
  }

  /** The body posted to `/api/ratings`. */
  datatype RatingSubmission = RatingSubmission(stars: nat, comment: string, photo: string, company: string)

  /** A text of an alert: a translation key that the screen passes through `t`, or a text the
      server sent, shown as it is. */
  datatype AlertText = Translated(key: string) | Verbatim(text: string)

  /** An alert the form raises, `Alert.alert(title, message)`. */
  datatype Alert = Alert(title: AlertText, message: AlertText)

  /** The alert raised when no star is selected. */
  const SelectStarsAlert: Alert := Alert(Translated("error"), Translated("selectStars"))

  /** The text an alert shows in language `lang`. */
  function Shown(text: AlertText, lang: Language): string {
    match text
    case Translated(key) => Translate(lang, key)
    case Verbatim(t) => t
  }

  /** `handleSubmit` up to its request: with no star selected an alert and nothing else;
      otherwise the flag goes up and the form's fields are posted. */
  function BeginSubmit(s: RateState): (r: (RateState, Option<RatingSubmission>, Option<Alert>))
    ensures s.rating == 0 <==> r.1.None?
    ensures s.rating == 0 ==> r.0 == s && r.2 == Some(SelectStarsAlert)
    ensures s.rating != 0 ==> r.0 == s.(submitting := true) && r.2.None?
    ensures s.rating != 0 ==> r.1 == Some(RatingSubmission(s.rating, s.comment, s.photo, s.company))
  {
    if s.rating == 0 then (s, None, Some(SelectStarsAlert))
    else (s.(submitting := true), Some(RatingSubmission(s.rating, s.comment, s.photo, s.company)), None)
  }

  /** How the rating request ended: OK, a response that was not OK (with its `detail`, if the
      body had one), or a thrown error, which also covers a body that is not JSON. */
  datatype SubmitOutcome = OkResponse | ErrorResponse(detail: Option<string>) | Thrown

  /** The alert's message on failure: the server's `detail` when it is a non-empty text
      (`data.detail || t('ratingError')`), else the generic error text. */
  function FailureMessage(outcome: SubmitOutcome): (r: AlertText)
    requires !outcome.OkResponse?
    ensures r.Verbatim? <==> outcome.ErrorResponse? && outcome.detail.Some? && outcome.detail.value != ""
    ensures r.Verbatim? ==> r.text == outcome.detail.value
    ensures r.Translated? ==> r.key == "ratingError"
  {
    if outcome.ErrorResponse? && outcome.detail.Some? && outcome.detail.value != "" then
      Verbatim(outcome.detail.value)
    else
      Translated("ratingError")
  }

  /** The rest of `handleSubmit`: on success the form returns to its initial values and the
      thank-you shows; on failure the fields stay and an alert shows; on every path the flag
      drops. */
  function CompleteSubmit(s: RateState, outcome: SubmitOutcome): (r: (RateState, Option<Alert>))
    ensures !r.0.submitting
    ensures outcome.OkResponse? ==> r.0 == Initial().(showSuccess := true) && r.1.None?
    ensures !outcome.OkResponse? ==> r.0 == s.(submitting := false)
    ensures !outcome.OkResponse? ==> r.1 == Some(Alert(Translated("error"), FailureMessage(outcome)))
  {
    if outcome.OkResponse? then
      (s.(showSuccess := true, rating := 0, comment := "", photo := "", company := "", submitting := false), None)
    else
      (s.(submitting := false), Some(Alert(Translated("error"), FailureMessage(outcome))))
  }

  /** A failed submit can be retried as it stands: the same body is posted again. */
  lemma FailedSubmitCanBeRetried(s: RateState, outcome: SubmitOutcome)
    requires s.rating != 0 && !s.submitting && !outcome.OkResponse?
    ensures var after := CompleteSubmit(BeginSubmit(s).0, outcome).0;
      after == s && BeginSubmit(after).1 == BeginSubmit(s).1
  {
  }

  /** A successful submit leaves a form that must be rated again before the next submit. */
  lemma SuccessNeedsNewRating(s: RateState)
    requires s.rating != 0
    ensures var after := CompleteSubmit(BeginSubmit(s).0, OkResponse).0;
      BeginSubmit(after).1.None?
  {
  }

  /** The thank-you screen's timeout. */
  function DismissSuccess(s: RateState): (r: RateState)
    ensures !r.showSuccess && r.(showSuccess := s.showSuccess) == s
  {
    s.(showSuccess := false)
  }

  /** The remove-photo button. */
  function RemovePhoto(s: RateState): (r: RateState)
    ensures r.photo == "" && r.(photo := s.photo) == s
  {
    s.(photo := "")
  }

  const JpegDataUrlPrefix: string := "data:image/jpeg;base64,"

  /** A picked or taken photo: kept as a JPEG data URL unless the picker was cancelled or
      returned no base64 data. */
  function PhotoPicked(s: RateState, canceled: bool, base64: string): (r: RateState)
    ensures canceled || base64 == "" ==> r == s
    ensures !canceled && base64 != "" ==>
      |r.photo| == |JpegDataUrlPrefix| + |base64| &&
      r.photo[..|JpegDataUrlPrefix|] == JpegDataUrlPrefix && r.photo[|JpegDataUrlPrefix|..] == base64
    ensures r.(photo := s.photo) == s
  {
    if !canceled && base64 != "" then s.(photo := JpegDataUrlPrefix + base64) else s
  }

  /** A picked photo can be removed again, returning the form to what it was without one. */
  lemma PickThenRemove(s: RateState, base64: string)
    requires s.photo == ""
    ensures RemovePhoto(PhotoPicked(s, false, base64)) == s
  {
  }

  lemma StepsKeepValid(s: RateState, star: nat, outcome: SubmitOutcome)
    requires Valid(s)
    ensures 1 <= star <= 5 ==> Valid(PressStar(s, star))
    ensures Valid(BeginSubmit(s).0)
    ensures Valid(CompleteSubmit(s, outcome).0)
  {
  }

  /** Every rating the form posts passes the backend's star validation. */
  lemma PostedRatingPassesValidation(s: RateState)
    requires Valid(s) && BeginSubmit(s).1.Some?
    ensures Server.AcceptedStars(BeginSubmit(s).1.value.stars)
  {
  }

  /** The screen component: its state cells, updated in place by the handlers. */
  class RateScreen {
    var rating: nat
    var comment: string
    var photo: string
    var company: string
    var submitting: bool
    var showSuccess: bool

    function State(): RateState
      reads this
    {
      RateState(rating, comment, photo, company, submitting, showSuccess)
    }

    constructor()
      ensures State() == Initial()
    {
      rating := 0;
      comment := "";
      photo := "";
      company := "";
      submitting := false;
      showSuccess := false;
    }

    method SetRating(star: nat)
      requires 1 <= star <= 5
      modifies this
      ensures State() == PressStar(old(State()), star)
    {
      rating := star;
    }

    /** `handleSubmit` up to its request; the submit button is disabled while submitting. */
    method BeginHandleSubmit() returns (body: Option<RatingSubmission>, alert: Option<Alert>)
      requires !submitting
      modifies this
      ensures (State(), body, alert) == BeginSubmit(old(State()))
    {
      if rating == 0 {
        return None, Some(SelectStarsAlert);
      }
      submitting := true;
      body := Some(RatingSubmission(rating, comment, photo, company));
      alert := None;
    }

    /** The rest of `handleSubmit`, once the request has ended. */
    method CompleteHandleSubmit(outcome: SubmitOutcome) returns (alert: Option<Alert>)
      requires submitting
      modifies this
      ensures (State(), alert) == CompleteSubmit(old(State()), outcome)
    {
      alert := None;
      if outcome.OkResponse? {
        showSuccess := true;
        rating := 0;
        comment := "";
        photo := "";
        company := "";
      } else {
        alert := Some(Alert(Translated("error"), FailureMessage(outcome)));
      }
      submitting := false;
    }

    method HideSuccess()
      modifies this
      ensures State() == DismissSuccess(old(State()))
    {
      showSuccess := false;
    }

    method HandleRemovePhoto()
      modifies this
      ensures State() == RemovePhoto(old(State()))
    {
      photo := "";
    }

    /** What `handleTakePhoto` and `handleChooseFromGallery` do with the picker's result. */
    method HandlePickerResult(canceled: bool, base64: string)
      modifies this
      ensures State() == PhotoPicked(old(State()), canceled, base64)
    {
      if !canceled && base64 != "" {
        photo := JpegDataUrlPrefix + base64;
      }
    }
  }
}
