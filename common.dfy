/** Small shared vocabulary: optional values, results, and the decimal
    rendering Python's f-strings use for integers. */
module Common {

  datatype Option<+T> = None | Some(value: T)

  datatype Result<+T, +E> = Success(value: T) | Failure(error: E)

  predicate IsDigit(c: char) {
    '0' <= c <= '9'
  }

  /** The text of `n` in base ten, as `f"{n}"` prints a non-negative int. */
  function Decimal(n: nat): (s: string)
    ensures |s| >= 1
    ensures forall i :: 0 <= i < |s| ==> IsDigit(s[i])
    ensures n < 10 ==> |s| == 1
    ensures n >= 10 ==> s[0] != '0'
  {
    if n < 10 then [(n + '0' as int) as char]
    else Decimal(n / 10) + Decimal(n % 10)
  }

  /** The number a string of decimal digits denotes. */
  function DigitsValue(s: string): (v: nat)
    requires forall i :: 0 <= i < |s| ==> IsDigit(s[i])
  {
    if s == [] then 0
    else
      assert IsDigit(s[|s| - 1]);
      10 * DigitsValue(s[..|s| - 1]) + (s[|s| - 1] as int - '0' as int)
  }

  /** Decimal writes the number itself: reading its digits back gives `n`. */
  lemma {:induction false} DecimalRoundTrip(n: nat)
    ensures DigitsValue(Decimal(n)) == n
  {
    if n >= 10 {
      var hi, lo := Decimal(n / 10), Decimal(n % 10);
      DecimalRoundTrip(n / 10);
      assert (hi + lo)[..|hi + lo| - 1] == hi;
    }
  }

  /** Different codes give different texts. */
  lemma DecimalInjective(a: nat, b: nat)
    requires Decimal(a) == Decimal(b)
    ensures a == b
  {
    DecimalRoundTrip(a);
    DecimalRoundTrip(b);
  }

  /** An observable effect of handling one webhook call, in the order it
      happens: claiming the event id, calls to the assistant backend, and
      calls to Slack. */
  datatype Action =
    | Claim(key: Option<string>)
    | CreateRun(input: string)
    | PollRun(threadId: Option<string>)
    | FetchMessages(threadId: Option<string>)
    | ReadReplies(channel: Option<string>, ts: Option<string>)
    | PostMessage(channel: Option<string>, ts: Option<string>, text: string)
}
