/** A second, stray copy of the frequency enum that the repository keeps
    beside the first one. It is stated here on its own terms and then shown
    to agree with the first copy on every input. */
module Requency {
  import opened Wrappers
  import opened Errors
  import Original = Frequency

  datatype Frequency = Daily | Weekly | Monthly

  function Value(f: Frequency): string {
    match f
    case Daily => "daily"
    case Weekly => "weekly"
    case Monthly => "monthly"
  }

  predicate IsFrequency(s: string) {
    s == Value(Daily) || s == Value(Weekly) || s == Value(Monthly)
  }

  function FrequencyFromString(s: string): (r: Result<Frequency, Error>)
    ensures r.Success? <==> IsFrequency(s)
    ensures r.Success? ==> Value(r.value) == s
    ensures r.Failure? ==> r.error == PlainError("Invalid frequency: " + s)
  {
    if IsFrequency(s) then
      Success(if s == Value(Daily) then Daily else if s == Value(Weekly) then Weekly else Monthly)
    else
      Failure(PlainError("Invalid frequency: " + s))
  }

  /** The copy accepts exactly "daily", "weekly" and "monthly". */
  lemma IsFrequencyExactly(s: string)
    ensures IsFrequency(s) <==> s == "daily" || s == "weekly" || s == "monthly"
  {
  }

  /** Both copies accept the same strings, parse them to the same string
      value and fail with the same message. */
  lemma AgreesWithFrequency(s: string)
    ensures IsFrequency(s) == Original.IsFrequency(s)
    ensures FrequencyFromString(s).Success? == Original.FrequencyFromString(s).Success?
    ensures FrequencyFromString(s).Success? ==>
              Value(FrequencyFromString(s).value) == Original.Value(Original.FrequencyFromString(s).value)
    ensures FrequencyFromString(s).Failure? ==>
              FrequencyFromString(s).error == Original.FrequencyFromString(s).error
  {
  }
}
