/** The display helpers of src/lib/utils/format.ts. The de-AT locale
    rendering of numbers and dates is a function given as a parameter. */
module Format {
  import opened Wrappers

  /** The placeholder shown for a missing value (an em dash). */
  const Missing: string := "\U{2014}"

  /** `formatCurrency`: the euro sign followed by the locale rendering; a
      missing value shows the placeholder. */
  function FormatCurrency(value: Option<real>, localeNumber: real -> string): (r: string)
    ensures value.None? ==> r == Missing
    ensures value.Some? ==> |r| >= 1 && r[0] == '\U{20AC}' && r[1..] == localeNumber(value.value)
  {
    match value
    case None => Missing
    case Some(v) => "\U{20AC}" + localeNumber(v)
  }

  /** The argument of `formatDate`: absent (null or undefined), a date
      string, or a Date object (milliseconds since the epoch). */
  datatype DateInput = NoDate | DateText(text: string) | DateValue(millis: int)

  /** JavaScript truthiness of the argument: every Date object is truthy,
      the empty string is not. */
  predicate Present(d: DateInput)
  {
    match d
    case NoDate => false
    case DateText(s) => s != ""
    case DateValue(_) => true
  }

  /** `formatDate` (day, month and four-digit year) and `formatDateTime`
      (the same with hour and minute): they differ only in the locale
      options handed to the renderer, so one definition serves both. */
  function FormatWith(d: DateInput, render: DateInput -> string): (r: string)
    ensures !Present(d) ==> r == Missing
    ensures Present(d) ==> r == render(d)
  {
    if !Present(d) then Missing else render(d)
  }

  const Gray: string := "text-gray-400"
  const Red: string := "text-red-600"
  const Yellow: string := "text-yellow-600"
  const Green: string := "text-green-600"

  /** `scoreColor`: the colour band of a lead score. */
  function ScoreColor(score: Option<real>): (r: string)
    ensures r == Gray <==> score.None?
    ensures r == Red <==> score.Some? && score.value <= 3.0
    ensures r == Yellow <==> score.Some? && 3.0 < score.value <= 6.0
    ensures r == Green <==> score.Some? && score.value > 6.0
  {
    match score
    case None => Gray
    case Some(s) => if s <= 3.0 then Red else if s <= 6.0 then Yellow else Green
  }

  /** The rank of a colour band, red lowest. */
  function Band(colour: string): nat
  {
    if colour == Red then 1 else if colour == Yellow then 2 else if colour == Green then 3 else 0
  }

  /** A higher score never gets a lower band. */
  lemma ScoreColorMonotone(a: real, b: real)
    requires a <= b
    ensures Band(ScoreColor(Some(a))) <= Band(ScoreColor(Some(b)))
  {
  }

  /** The integer scores the lead service produces (1 to 10) split 3/3/4
      over red, yellow and green. */
  lemma LeadScoreBands(score: int)
    requires 1 <= score <= 10
    ensures ScoreColor(Some(score as real)) == (if score <= 3 then Red else if score <= 6 then Yellow else Green)
  {
  }
}
