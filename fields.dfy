/**
 * The value holders of the address book: a contact's `Name` and a `Phone`
 * (both are `Field`s in the source, holding a string and rendering as it),
 * and the ten-digit rule a phone number must satisfy.
 */
module Fields {
  import opened Wrappers

  /** The two conditions the address book reports to its caller. */
  datatype Error = InvalidNumber | NotFound

  datatype Name = Name(value: string)

  datatype Phone = Phone(value: string)

  const NumberLength: nat := 10

  /** The `\d` class, restricted to the ASCII digits. */
  predicate IsDigit(c: char) {
    '0' <= c <= '9'
  }

  /** `n` digits start at position `i` of `s` (the `\d{n}` part of the pattern). */
  predicate DigitsFrom(s: string, i: nat, n: nat)
    decreases n
  {
    if n == 0 then true
    else i < |s| && IsDigit(s[i]) && DigitsFrom(s, i + 1, n - 1)
  }

  /** Python's `$` without the MULTILINE flag: the end of `s`, or just before a final newline. */
  predicate DollarAt(s: string, i: nat) {
    i == |s| || (i + 1 == |s| && s[i] == '\n')
  }

  /** `re.match(r"^\d{10}$", s) is not None`, as the source writes it. */
  predicate MatchesPattern(s: string) {
    DigitsFrom(s, 0, NumberLength) && DollarAt(s, NumberLength)
  }

  /** The rule the source intends: the whole of `s` is ten digits. */
  predicate IsValidNumber(s: string) {
    DigitsFrom(s, 0, NumberLength) && NumberLength == |s|
  }

  lemma {:induction false} DigitsFromIff(s: string, i: nat, n: nat)
    requires i <= |s|
    ensures DigitsFrom(s, i, n) <==> i + n <= |s| && forall k :: i <= k < i + n ==> IsDigit(s[k])
    decreases n
  {
    if n > 0 && i < |s| {
      DigitsFromIff(s, i + 1, n - 1);
    }
  }

  /** A valid number is exactly ten ASCII digits, nothing before or after them. */
  lemma IsValidNumberIff(s: string)
    ensures IsValidNumber(s) <==> |s| == 10 && forall k :: 0 <= k < |s| ==> IsDigit(s[k])
  {
    DigitsFromIff(s, 0, NumberLength);
  }

  /** The pattern as written accepts the valid numbers and, besides them, a valid number followed by one newline. */
  lemma MatchesPatternIff(s: string)
    ensures MatchesPattern(s) <==> IsValidNumber(s) || (|s| == 11 && s[10] == '\n' && IsValidNumber(s[..10]))
  {
    DigitsFromIff(s, 0, NumberLength);
    if |s| >= 10 {
      DigitsFromIff(s[..10], 0, NumberLength);
    }
  }

  /** The input on which the pattern as written and the intended rule disagree. */
  lemma TrailingNewlineAccepted()
    ensures MatchesPattern("1234567890\n") && !IsValidNumber("1234567890\n")
  {
  }

  /** On every input the unit tests use, both rules give the expected answer. */
  lemma ValidationExamples()
    ensures IsValidNumber("1234567890") && MatchesPattern("1234567890")
    ensures !IsValidNumber("12345") && !MatchesPattern("12345")
    ensures !IsValidNumber("123456789012") && !MatchesPattern("123456789012")
    ensures !IsValidNumber("12345abcde") && !MatchesPattern("12345abcde")
    ensures !IsValidNumber("123 456 7890") && !MatchesPattern("123 456 7890")
    ensures !IsValidNumber("123-456-7890") && !MatchesPattern("123-456-7890")
  {
  }

  /** Building a `Phone`: it exists only for a valid number, and then holds that number. */
  function NewPhone(number: string): (r: Result<Phone, Error>)
    ensures r.Success? <==> IsValidNumber(number)
    ensures r.Success? ==> r.value.value == number
    ensures r.Failure? ==> r.error == InvalidNumber
  {
    if IsValidNumber(number) then Success(Phone(number)) else Failure(InvalidNumber)
  }
}
