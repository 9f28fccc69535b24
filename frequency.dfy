/** The closed set of cadences at which a task may be credited. */
module Frequency {
  import opened Wrappers
  import opened Errors

  datatype Frequency = Daily | Weekly | Monthly

  /** The string value each enum member stands for. */
  function Value(f: Frequency): string {
    match f
    case Daily => "daily"
    case Weekly => "weekly"
    case Monthly => "monthly"
  }

  /** isFrequency: `s` is one of the enum's values. */
  predicate IsFrequency(s: string) {
    s == Value(Daily) || s == Value(Weekly) || s == Value(Monthly)
  }

  /** frequencyFromString: the input itself when it is a member of the enum,
      otherwise an error naming the offending value. */
  function FrequencyFromString(s: string): (r: Result<Frequency, Error>)
    ensures r.Success? <==> IsFrequency(s)
    ensures r.Success? ==> Value(r.value) == s
    ensures r.Failure? ==> r.error == PlainError("Invalid frequency: " + s)
  {
    if s == "daily" then Success(Daily)
    else if s == "weekly" then Success(Weekly)
    else if s == "monthly" then Success(Monthly)
    else Failure(PlainError("Invalid frequency: " + s))
  }

  /** The enum holds exactly the three strings "daily", "weekly" and "monthly". */
  lemma IsFrequencyExactly(s: string)
    ensures IsFrequency(s) <==> s == "daily" || s == "weekly" || s == "monthly"
    ensures !IsFrequency("invalidFrequency")
  {
  }

  /** Every member's value parses back to that member. */
  lemma FromStringOfValue(f: Frequency)
    ensures IsFrequency(Value(f))
    ensures FrequencyFromString(Value(f)) == Success(f)
  {
  }

  /** Distinct members have distinct values, so parsing is well defined. */
  lemma ValueInjective(f: Frequency, g: Frequency)
    ensures Value(f) == Value(g) ==> f == g
  {
  }
}
