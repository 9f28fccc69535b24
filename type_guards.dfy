/** The date-string guard every time-bearing model uses.

    In the repository this delegates to a date library's ISO-8601 parser and
    asks whether the parsed instant is valid. The parser is not part of this
    model: the predicate below is a stand-in that accepts a string starting
    with a real calendar date `YYYY-MM-DD` (month 1..12, day within the
    month, leap years included), optionally followed by a `T` and a time part
    it does not inspect. The proofs about the models only rely on it
    accepting some string (the examples below), not on which ones. */
module TypeGuards {

  predicate IsDigit(c: char) {
    '0' <= c <= '9'
  }

  function DigitValue(c: char): (r: nat)
    requires IsDigit(c)
    ensures r < 10
  {
    (c as int - '0' as int) as nat
  }

  predicate IsLeapYear(year: nat) {
    year % 4 == 0 && (year % 100 != 0 || year % 400 == 0)
  }

  function DaysInMonth(year: nat, month: nat): (r: nat)
    requires 1 <= month <= 12
    ensures 28 <= r <= 31
  {
    if month == 2 then (if IsLeapYear(year) then 29 else 28)
    else if month == 4 || month == 6 || month == 9 || month == 11 then 30
    else 31
  }

  /** `YYYY-MM-DD` at the head of `s`, all ten characters well placed. */
  predicate HasDateShape(s: string) {
    && |s| >= 10
    && IsDigit(s[0]) && IsDigit(s[1]) && IsDigit(s[2]) && IsDigit(s[3])
    && s[4] == '-'
    && IsDigit(s[5]) && IsDigit(s[6])
    && s[7] == '-'
    && IsDigit(s[8]) && IsDigit(s[9])
    && (|s| == 10 || s[10] == 'T')
  }

  /** isValidDateTimeString: a string that names a real calendar day. */
  predicate IsValidDateTimeString(s: string) {
    && HasDateShape(s)
    && var year := DigitValue(s[0]) * 1000 + DigitValue(s[1]) * 100 + DigitValue(s[2]) * 10 + DigitValue(s[3]);
       var month := DigitValue(s[5]) * 10 + DigitValue(s[6]);
       var day := DigitValue(s[8]) * 10 + DigitValue(s[9]);
       1 <= month <= 12 && 1 <= day <= DaysInMonth(year, month)
  }

  /** The timestamp the repository's own examples use is accepted, and so
      is a leap day. */
  lemma AcceptedExamples()
    ensures IsValidDateTimeString("2023-02-25T00:00:00.000-06:00")
    ensures IsValidDateTimeString("2024-02-29")
  {
  }

  /** An impossible calendar day, an impossible month and a non-date are rejected. */
  lemma RejectedExamples()
    ensures !IsValidDateTimeString("2023-02-29")
    ensures !IsValidDateTimeString("2023-13-01")
    ensures !IsValidDateTimeString("not a date")
  {
  }
}
