/** How one remote call of an async thunk ends.

    Every thunk makes exactly one awaited call through the shared axios
    instance. The call is not performed here: what it produced is an input
    (`Response`), and the thunk is a function from its argument and that
    response to the request it sends and the way it settles (`Outcome`).
 */
module Thunks {
  import opened Shapes

  /** What the awaited call produced: a response it resolved with, an
      error that carries the server's response (axios rejects with one for
      the statuses it does not accept), or an error with no response at all
      (network failure, aborted request). Which statuses axios accepts is
      part of the input, not decided here. */
  datatype Response<D> = Received(status: int, data: D) | ErrorStatus(status: int) | NoResponse

  /** IErrorMessage. The fetches add the upstream status to it. */
  datatype ErrorMessage = ErrorMessage(message: string, status: Option<int>)

  /** How the thunk settles: fulfilled with its value, rejected through
      `rejectWithValue` with an error message, or rejected because something
      was thrown, in which case the action carries no IErrorMessage. */
  datatype Outcome<T> = Fulfilled(value: T) | Rejected(error: ErrorMessage) | Thrown

  datatype Verb = Get | Post | Put | Patch | Delete

  /** The request a thunk sends: verb, path below the API base and body. */
  datatype Request<B> = Request(verb: Verb, path: string, body: Option<B>)

  /** One thunk run: what it sent and how it settled. */
  datatype Call<B, T> = Call(request: Request<B>, outcome: Outcome<T>)

  /** The check every create, update, delete and publish thunk makes: the
      call must resolve with status exactly 200, any other resolved status
      is rejected with the thunk's own message, and a rejected call is not
      caught at all. */
  function StatusChecked<D>(response: Response<D>, message: string): (o: Outcome<D>)
    ensures o.Fulfilled? <==> response.Received? && response.status == 200
    ensures o.Fulfilled? ==> o.value == response.data
    ensures o.Rejected? <==> response.Received? && response.status != 200
    ensures o.Rejected? ==> o.error == ErrorMessage(message, None)
    ensures o.Thrown? <==> !response.Received?
  {
    match response
    case Received(status, data) =>
      if status != 200 then Rejected(ErrorMessage(message, None)) else Fulfilled(data)
    case ErrorStatus(_) => Thrown
    case NoResponse => Thrown
  }

  /** A status-checked thunk that settles with a value of its own instead of
      the response data. */
  function Echo<D, T>(response: Response<D>, message: string, value: T): (o: Outcome<T>)
    ensures o.Fulfilled? <==> response.Received? && response.status == 200
    ensures o.Fulfilled? ==> o.value == value
    ensures o.Rejected? <==> response.Received? && response.status != 200
    ensures o.Rejected? ==> o.error == ErrorMessage(message, None)
    ensures o.Thrown? <==> !response.Received?
  {
    match StatusChecked(response, message)
    case Fulfilled(_) => Fulfilled(value)
    case Rejected(error) => Rejected(error)
    case Thrown => Thrown
  }

  // ---------------------------------------------------------------------
  // Numeric ids in paths: a template literal writes a safe integer in decimal.
  // ---------------------------------------------------------------------

  function Digit(d: nat): char
    requires d < 10
  {
    "0123456789"[d]
  }

  function DigitsOf(n: nat): (s: string)
    ensures |s| > 0 && forall i :: 0 <= i < |s| ==> '0' <= s[i] <= '9'
    decreases n
  {
    if n < 10 then [Digit(n)] else DigitsOf(n / 10) + [Digit(n % 10)]
  }

  /** `${n}` for an integer `n`. */
  function NumberText(n: int): (s: string)
    ensures |s| > 0
    ensures n < 0 <==> s[0] == '-'
  {
    if n < 0 then "-" + DigitsOf(-n) else DigitsOf(n)
  }

  /** Reads a non-empty run of decimal digits back. */
  function ParseDigits(s: string): int
    requires |s| > 0
    decreases |s|
  {
    var d := (s[|s| - 1] as int) - ('0' as int);
    if |s| == 1 then d else ParseDigits(s[..|s| - 1]) * 10 + d
  }

  lemma {:induction false} DigitsRoundTrip(n: nat)
    ensures ParseDigits(DigitsOf(n)) == n
    decreases n
  {
    if n >= 10 {
      var s := DigitsOf(n);
      assert s[..|s| - 1] == DigitsOf(n / 10);
      DigitsRoundTrip(n / 10);
    }
  }

  /** Different integers give different path segments. */
  lemma NumberTextInjective(m: int, n: int)
    requires NumberText(m) == NumberText(n)
    ensures m == n
  {
    DigitsRoundTrip(if m < 0 then -m else m);
    DigitsRoundTrip(if n < 0 then -n else n);
    if m < 0 {
      assert NumberText(m)[1..] == DigitsOf(-m);
      assert NumberText(n)[1..] == DigitsOf(-n);
    }
  }
}
