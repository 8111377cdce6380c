/** The give-feedback form (frontend/src/pages/GiveFeedback.tsx): per-field validation with
    its exact messages, the payload handed to `createFeedback`, the error text shown when
    submission fails, and the sentiment descriptions. */
module GiveFeedbackForm {
  import opened Domain
  import opened Decimal

  const SelectMemberMessage := "Please select a team member"
  const StrengthsRequiredMessage := "Please provide strengths feedback"
  const AreasRequiredMessage := "Please provide improvement areas"
  const TooShortMessage := "Please provide more detailed feedback (at least 10 characters)"
  const SentimentRequiredMessage := "Please select an overall sentiment"
  const SubmitFailedMessage := "Failed to submit feedback"

  /** The `minLength` of both text areas. */
  const MinLength := 10

  /** The raw form: the select's value ("" for "Choose a team member..."), the two text
      areas, and the chosen radio button, if any. */
  datatype FormData = FormData(employeeId: string, strengths: string, areasToImprove: string, sentiment: Option<Sentiment>)

  /** One error message per field, None where the field passes. */
  datatype FieldErrors = FieldErrors(employeeId: Option<string>, strengths: Option<string>,
                                     areasToImprove: Option<string>, sentiment: Option<string>)

  /** A text area with `required` and `minLength: 10`: an empty value fails `required`; a
      non-empty value shorter than ten characters fails `minLength`. */
  function TextFieldError(value: string, requiredMessage: string): (e: Option<string>)
    ensures value == "" ==> e == Some(requiredMessage)
    ensures value != "" && |value| < MinLength ==> e == Some(TooShortMessage)
    ensures e.None? <==> |value| >= MinLength
  {
    if value == "" then Some(requiredMessage)
    else if |value| < MinLength then Some(TooShortMessage)
    else None
  }

  /** Every rule of the form, each field checked independently. */
  function Validate(form: FormData): (errs: FieldErrors)
    ensures errs.employeeId.None? <==> form.employeeId != ""
    ensures errs.employeeId.Some? ==> errs.employeeId.value == SelectMemberMessage
    ensures errs.strengths == TextFieldError(form.strengths, StrengthsRequiredMessage)
    ensures errs.areasToImprove == TextFieldError(form.areasToImprove, AreasRequiredMessage)
    ensures errs.sentiment.None? <==> form.sentiment.Some?
    ensures errs.sentiment.Some? ==> errs.sentiment.value == SentimentRequiredMessage
  {
    FieldErrors(
      if form.employeeId == "" then Some(SelectMemberMessage) else None,
      TextFieldError(form.strengths, StrengthsRequiredMessage),
      TextFieldError(form.areasToImprove, AreasRequiredMessage),
      if form.sentiment.None? then Some(SentimentRequiredMessage) else None)
  }

  predicate Passes(errs: FieldErrors)
  {
    errs.employeeId.None? && errs.strengths.None? && errs.areasToImprove.None? && errs.sentiment.None?
  }

  /** A JavaScript number as far as `Number(text)` is concerned here: an integer, or NaN. */
  datatype JsNumber = Finite(n: int) | NaN

  /** `Number(text)` for the select's values: digit strings read as their value; other text
      is NaN. */
  function ToNumber(text: string): (r: JsNumber)
    ensures r.Finite? <==> ParseDecimal(text).Some?
    ensures r.Finite? ==> r.n == ParseDecimal(text).value
  {
    match ParseDecimal(text)
    case Some(n) => Finite(n)
    case None => NaN
  }

  /** What `onSubmit` sends to `createFeedback`. */
  datatype FeedbackPayload = FeedbackPayload(employeeId: JsNumber, strengths: string, areasToImprove: string, sentiment: Sentiment)

  /** `handleSubmit(onSubmit)`: the request is made only when every field passes, with the
      employee id converted to a number and the other fields passed on verbatim. */
  function Submit(form: FormData): (r: Option<FeedbackPayload>)
    ensures r.Some? <==>
      form.employeeId != "" && |form.strengths| >= MinLength && |form.areasToImprove| >= MinLength && form.sentiment.Some?
    ensures r.Some? ==>
      && r.value.employeeId == ToNumber(form.employeeId)
      && r.value.strengths == form.strengths
      && r.value.areasToImprove == form.areasToImprove
      && r.value.sentiment == form.sentiment.value
  {
    if !Passes(Validate(form)) then None
    else Some(FeedbackPayload(ToNumber(form.employeeId), form.strengths, form.areasToImprove, form.sentiment.value))
  }

  /** Choosing a team member puts the decimal spelling of their id in the select; the payload
      then carries exactly that id. */
  lemma SelectedMemberIdRoundTrip(member: User, strengths: string, areasToImprove: string, sentiment: Sentiment)
    requires member.id >= 0
    requires |strengths| >= MinLength && |areasToImprove| >= MinLength
    ensures var r := Submit(FormData(DecimalString(member.id), strengths, areasToImprove, Some(sentiment)));
      r.Some? && r.value.employeeId == Finite(member.id)
  {
    DecimalRoundTrip(member.id);
  }

  /** `error.response?.data?.detail || 'Failed to submit feedback'`: the server's detail
      when there is a non-empty one, the fixed text otherwise. */
  function SubmitErrorMessage(detail: Option<string>): (m: string)
    ensures detail.Some? && detail.value != "" ==> m == detail.value
    ensures detail.None? || detail.value == "" ==> m == SubmitFailedMessage
    ensures m != ""
  {
    if detail.Some? && detail.value != "" then detail.value else SubmitFailedMessage
  }

  /** `getSentimentDescription`: a fixed sentence for each sentiment's wire name, "" for
      any other text. */
  function SentimentDescription(text: string): (d: string)
    ensures text == "positive" ==> d == "Overall positive performance and attitude"
    ensures text == "neutral" ==> d == "Balanced performance with room for growth"
    ensures text == "negative" ==> d == "Areas needing immediate attention and improvement"
    ensures d != "" <==> ParseSentiment(text).Some?
  {
    if text == "positive" then "Overall positive performance and attitude"
    else if text == "neutral" then "Balanced performance with room for growth"
    else if text == "negative" then "Areas needing immediate attention and improvement"
    else ""
  }

  /** Every radio option shows a description, and no two options share one. */
  lemma DescriptionsDistinct(a: Sentiment, b: Sentiment)
    ensures SentimentDescription(SentimentName(a)) != ""
    ensures a != b ==> SentimentDescription(SentimentName(a)) != SentimentDescription(SentimentName(b))
  {
  }
}
