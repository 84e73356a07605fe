/**
 * The remote gateway: the requests the client issues, what a `fetch` can give
 * back, and the check that turns a non-ok response into a failure.
 */
module Api {
  import opened Wrappers
  import opened Entities

  datatype HttpMethod = GET | POST | PUT

  /**
   * What a request carries: its JSON body, or, for the matches query, the
   * criteria its query string is built from.
   */
  datatype Body =
    | NoBody
    | MatchQuery(criteria: Criteria)
    | QuoteRequest(service: string, cost: int, onboardingData: Criteria)
    | AcceptPricing(pricing: Pricing)
    | DeclineReason(reason: Option<string>)

  /** One HTTP request; `bearer` is sent as `Authorization: Bearer <token>` when present. */
  datatype Request = Request(verb: HttpMethod, path: string, bearer: Option<string>, body: Body)

  /**
   * What one `fetch` gave back: a response with its status, its raw text and
   * its parsed JSON, or no usable response at all (a network failure, or a
   * body that is not JSON) with the thrown error's message.
   */
  datatype Outcome<T> = Responded(status: nat, text: string, data: T) | Transport(message: string)

  /** `Response.ok`: the status is in the 2xx range. */
  predicate IsOk(status: nat) {
    200 <= status <= 299
  }

  const MatchesPath := "/api/matches"

  /** The GET that `getMatches` issues; the query string is built from the criteria. */
  function MatchesRequest(criteria: Criteria): Request {
    Request(GET, MatchesPath, None, MatchQuery(criteria))
  }

  /** The decimal digit character for `d`. */
  function Digit(d: nat): (c: char)
    requires d < 10
    ensures '0' <= c <= '9'
  {
    ('0' as int + d) as char
  }

  function DigitValue(c: char): int {
    c as int - '0' as int
  }

  predicate AllDigits(s: string) {
    forall i :: 0 <= i < |s| ==> '0' <= s[i] <= '9'
  }

  /** How a template literal renders a status code: its decimal digits. */
  function DecimalString(n: nat): (s: string)
    ensures s != [] && AllDigits(s)
  {
    if n < 10 then [Digit(n)] else DecimalString(n / 10) + [Digit(n % 10)]
  }

  /** The number a string of decimal digits denotes. */
  function DecimalValue(s: string): int {
    if s == [] then 0 else DecimalValue(s[..|s| - 1]) * 10 + DigitValue(s[|s| - 1])
  }

  /** Rendering a status code in decimal loses nothing. */
  lemma {:induction false} DecimalRoundTrip(n: nat)
    ensures DecimalValue(DecimalString(n)) == n
  {
    var s := DecimalString(n);
    if n < 10 {
      assert s[..|s| - 1] == [];
    } else {
      assert s[..|s| - 1] == DecimalString(n / 10);
      DecimalRoundTrip(n / 10);
    }
  }

  const HttpErrorPrefix := "HTTP error! status: "

  /** The message of the error thrown for a non-ok response. */
  function HttpErrorMessage(status: nat): string {
    HttpErrorPrefix + DecimalString(status)
  }

  /** Reads the status back out of a message shaped like `HttpErrorMessage`. */
  function StatusInMessage(m: string): int {
    if |m| < |HttpErrorPrefix| then -1 else DecimalValue(m[|HttpErrorPrefix|..])
  }

  /** The error message names the failing status, so distinct statuses give distinct messages. */
  lemma HttpErrorMessageNamesStatus(status: nat)
    ensures StatusInMessage(HttpErrorMessage(status)) == status
    ensures forall other: nat :: HttpErrorMessage(other) == HttpErrorMessage(status) ==> other == status
  {
    var m := HttpErrorMessage(status);
    assert m[|HttpErrorPrefix|..] == DecimalString(status);
    DecimalRoundTrip(status);
    forall other: nat | HttpErrorMessage(other) == m
      ensures other == status
    {
      assert HttpErrorMessage(other)[|HttpErrorPrefix|..] == DecimalString(other);
      DecimalRoundTrip(other);
    }
  }

  /**
   * The check every list fetch applies: a non-ok response throws an error
   * naming its status, a transport failure keeps its own message, and only an
   * ok response yields the parsed data.
   */
  function CheckOk<T>(o: Outcome<T>): (r: Result<T, string>)
    ensures r.Success? <==> o.Responded? && IsOk(o.status)
    ensures r.Success? ==> r.value == o.data
    ensures o.Responded? && !IsOk(o.status) ==> r == Failure(HttpErrorMessage(o.status))
    ensures o.Transport? ==> r == Failure(o.message)
  {
    match o
    case Transport(message) => Failure(message)
    case Responded(status, _, data) =>
      if IsOk(status) then Success(data) else Failure(HttpErrorMessage(status))
  }

  /** The variant the accept and decline handlers apply: the error also carries the response text. */
  function CheckOkWithText<T>(o: Outcome<T>): (r: Result<T, string>)
    ensures r.Success? <==> o.Responded? && IsOk(o.status)
    ensures r.Success? ==> r.value == o.data
    ensures o.Responded? && !IsOk(o.status) ==> r == Failure(HttpErrorMessage(o.status) + " - " + o.text)
    ensures o.Transport? ==> r == Failure(o.message)
  {
    match o
    case Transport(message) => Failure(message)
    case Responded(status, text, data) =>
      if IsOk(status) then Success(data) else Failure(HttpErrorMessage(status) + " - " + text)
  }

  /** `err.message || fallback`: an empty message is replaced by the fallback. */
  function MessageOr(message: string, fallback: string): (m: string)
    ensures message != "" ==> m == message
    ensures message == "" ==> m == fallback
  {
    if message != "" then message else fallback
  }

  /** A failed list fetch always leaves a non-empty error, because every fallback is non-empty. */
  lemma FailureMessageNonEmpty<T>(o: Outcome<T>, fallback: string)
    requires fallback != ""
    requires CheckOk(o).Failure?
    ensures MessageOr(CheckOk(o).error, fallback) != ""
  {
  }
}
