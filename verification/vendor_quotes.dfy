/**
 * The vendor quotes view: it loads the logged-in vendor's quote requests once,
 * lets the vendor accept (with pricing) or decline each pending one, and
 * patches the accepted or declined quote in place from the server's reply.
 */
module VendorQuotes {
  import opened Wrappers
  import opened Entities
  import opened Api
  import opened JsString

  const Pending := "pending"

  const NotAuthenticatedMessage := "Vendor not authenticated. Please log in."
  const FetchQuotesFallback := "Failed to fetch quotes."
  const PricingCancelledAlert := "Pricing information cancelled."
  const InvalidPricingAlert := "Invalid pricing information. Please enter valid numbers."
  const MissingTokenAlert := "Authentication token not found. Please log in again."
  const AcceptedAlert := "Quote accepted successfully!"
  const DeclinedAlert := "Quote declined successfully!"
  const AcceptErrorPrefix := "Error accepting quote: "
  const DeclineErrorPrefix := "Error declining quote: "

  function VendorQuotesPath(vendorId: string): string {
    "/api/vendors/" + vendorId + "/quotes"
  }

  function AcceptPath(quoteId: string): string {
    "/api/quotes/" + quoteId + "/accept"
  }

  function DeclinePath(quoteId: string): string {
    "/api/quotes/" + quoteId + "/decline"
  }

  /**
   * One answered pricing prompt: cancelled, or the text entered as
   * `parseFloat` reads it (`None` when that is NaN).
   */
  datatype PricePrompt = Cancelled | Entered(parsed: Option<real>)

  /** A parsed price the handler accepts: a number greater than zero. */
  predicate ValidPrice(p: Option<real>) {
    p.Some? && p.value > 0.0
  }

  predicate PricingValid(perCouple: PricePrompt, total: PricePrompt) {
    perCouple.Entered? && total.Entered? && ValidPrice(perCouple.parsed) && ValidPrice(total.parsed)
  }

  /**
   * What `handleAcceptQuote` does before the network: the PUT it issues, or
   * the alert that aborts it.
   */
  function PlanAccept(quoteId: string, perCouple: PricePrompt, total: PricePrompt, token: Option<string>): (r: Result<Request, string>)
    ensures r.Success? <==> PricingValid(perCouple, total) && Truthy(token)
    ensures r.Success? ==>
      r.value.verb == PUT && r.value.path == AcceptPath(quoteId) && r.value.bearer == token &&
      r.value.body.AcceptPricing? &&
      r.value.body.pricing.perCouple > 0.0 && r.value.body.pricing.total > 0.0 &&
      Some(r.value.body.pricing.perCouple) == perCouple.parsed && Some(r.value.body.pricing.total) == total.parsed
  {
    if perCouple.Cancelled? || total.Cancelled? then Failure(PricingCancelledAlert)
    else if !ValidPrice(perCouple.parsed) || !ValidPrice(total.parsed) then Failure(InvalidPricingAlert)
    else if !Truthy(token) then Failure(MissingTokenAlert)
    else Success(Request(PUT, AcceptPath(quoteId), token, AcceptPricing(Pricing(perCouple.parsed.value, total.parsed.value))))
  }

  /**
   * The three aborts are checked in order: a cancelled prompt wins over bad
   * numbers, and bad numbers win over a missing token.
   */
  lemma AcceptAbortOrder(quoteId: string, perCouple: PricePrompt, total: PricePrompt, token: Option<string>)
    ensures perCouple.Cancelled? || total.Cancelled? ==>
      PlanAccept(quoteId, perCouple, total, token) == Failure(PricingCancelledAlert)
    ensures perCouple.Entered? && total.Entered? && !PricingValid(perCouple, total) ==>
      PlanAccept(quoteId, perCouple, total, token) == Failure(InvalidPricingAlert)
    ensures PricingValid(perCouple, total) && !Truthy(token) ==>
      PlanAccept(quoteId, perCouple, total, token) == Failure(MissingTokenAlert)
  {
  }

  /**
   * The decline body's optional `reason`: present exactly when the prompt was
   * answered with something other than whitespace, and then trimmed.
   */
  function DeclineReasonField(reason: Option<string>): (r: Option<string>)
    ensures r.Some? <==> reason.Some? && !Blank(reason.value)
    ensures r.Some? ==> r.value == Trim(reason.value) && r.value != ""
  {
    match reason
    case None => None
    case Some(text) =>
      TrimEmptyIffBlank(text);
      if text != "" && Trim(text) != "" then Some(Trim(text)) else None
  }

  /**
   * What `handleDeclineQuote` does before the network: only a missing token
   * aborts it; a cancelled or blank reason still sends `{}`.
   */
  function PlanDecline(quoteId: string, reason: Option<string>, token: Option<string>): (r: Result<Request, string>)
    ensures r.Success? <==> Truthy(token)
    ensures r.Failure? ==> r.error == MissingTokenAlert
    ensures r.Success? ==>
      r.value.verb == PUT && r.value.path == DeclinePath(quoteId) && r.value.bearer == token &&
      r.value.body == DeclineReason(DeclineReasonField(reason))
  {
    if !Truthy(token) then Failure(MissingTokenAlert)
    else Success(Request(PUT, DeclinePath(quoteId), token, DeclineReason(DeclineReasonField(reason))))
  }

  /** `quotes.map(q => q.id === quoteId ? updated : q)`. */
  function PatchById(quotes: seq<Quote>, quoteId: string, updated: Quote): (r: seq<Quote>)
    ensures |r| == |quotes|
    ensures forall i :: 0 <= i < |quotes| && quotes[i].id == quoteId ==> r[i] == updated
    ensures forall i :: 0 <= i < |quotes| && quotes[i].id != quoteId ==> r[i] == quotes[i]
  {
    if quotes == [] then []
    else [if quotes[0].id == quoteId then updated else quotes[0]] + PatchById(quotes[1..], quoteId, updated)
  }

  function Ids(quotes: seq<Quote>): (ids: seq<string>)
    ensures |ids| == |quotes| && forall i :: 0 <= i < |quotes| ==> ids[i] == quotes[i].id
  {
    seq(|quotes|, i requires 0 <= i < |quotes| => quotes[i].id)
  }

  /** A reply for an id the list does not hold changes nothing. */
  lemma PatchAbsentIdIsIdentity(quotes: seq<Quote>, quoteId: string, updated: Quote)
    requires forall i :: 0 <= i < |quotes| ==> quotes[i].id != quoteId
    ensures PatchById(quotes, quoteId, updated) == quotes
  {
  }

  /** When the server returns the quote under its own id, the list keeps its ids in order. */
  lemma PatchKeepsIds(quotes: seq<Quote>, quoteId: string, updated: Quote)
    requires updated.id == quoteId
    ensures Ids(PatchById(quotes, quoteId, updated)) == Ids(quotes)
  {
  }

  /** Applying the same reply twice is the same as applying it once. */
  lemma PatchIdempotent(quotes: seq<Quote>, quoteId: string, updated: Quote)
    ensures PatchById(PatchById(quotes, quoteId, updated), quoteId, updated) == PatchById(quotes, quoteId, updated)
  {
  }

  /** One rendered quote, with its accept/decline buttons or without. */
  datatype Card = Card(quote: Quote, actions: bool)

  /** The view's render result, in the order its early returns are tried. */
  datatype Screen = AuthRequired(message: string) | LoadingQuotes | QuotesError(message: string) | NoQuotes | QuoteCards(cards: seq<Card>)

  /** One card per quote in list order; only pending quotes offer accept and decline. */
  function Cards(quotes: seq<Quote>): (cs: seq<Card>)
    ensures |cs| == |quotes|
    ensures forall i :: 0 <= i < |quotes| ==> cs[i].quote == quotes[i] && (cs[i].actions <==> quotes[i].status == Pending)
  {
    seq(|quotes|, i requires 0 <= i < |quotes| => Card(quotes[i], quotes[i].status == Pending))
  }

  /**
   * Render precedence: no vendor id and not loading gives the auth message;
   * otherwise loading; otherwise a truthy error; otherwise the list.
   */
  function Render(vendorId: Option<string>, loading: bool, error: Option<string>, quotes: seq<Quote>): (s: Screen)
    ensures loading <==> s == LoadingQuotes
    ensures s.AuthRequired? <==> !loading && !Truthy(vendorId)
    ensures s.AuthRequired? ==> s.message == if Truthy(error) then error.value else NotAuthenticatedMessage
    ensures s.AuthRequired? ==> s.message != ""
    ensures s.QuotesError? ==> Truthy(error) && s.message == error.value
    ensures !loading && Truthy(vendorId) && !Truthy(error) ==>
      s == if quotes == [] then NoQuotes else QuoteCards(Cards(quotes))
    ensures s.QuoteCards? || s.NoQuotes? ==> !loading && Truthy(vendorId) && !Truthy(error)
    ensures !loading && Truthy(error) ==> s.AuthRequired? || s == QuotesError(error.value)
  {
    if !Truthy(vendorId) && !loading then AuthRequired(if Truthy(error) then error.value else NotAuthenticatedMessage)
    else if loading then LoadingQuotes
    else if Truthy(error) then QuotesError(error.value)
    else if quotes == [] then NoQuotes
    else QuoteCards(Cards(quotes))
  }

  /** The page's state: the session it was given and the three state hooks. */
  class QuotesView {
    const vendorId: Option<string>
    const token: Option<string>
    var quotes: seq<Quote>
    var loading: bool
    var error: Option<string>

    function Screen(): Screen
      reads this
    {
      Render(vendorId, loading, error, quotes)
    }

    /** First render: an empty list, loading, no error. */
    constructor (vendorId: Option<string>, token: Option<string>)
      ensures this.vendorId == vendorId && this.token == token
      ensures quotes == [] && loading && error == None
    {
      this.vendorId := vendorId;
      this.token := token;
      quotes := [];
      loading := true;
      error := None;
    }

    /**
     * The mount effect up to the request: without a truthy id and token no
     * request is issued and the not-authenticated error is set; otherwise the
     * authorised GET for this vendor's quotes is issued.
     */
    method StartFetch() returns (sent: Option<Request>)
      modifies this
      ensures quotes == old(quotes)
      ensures sent.Some? <==> Truthy(vendorId) && Truthy(token)
      ensures sent.None? ==> !loading && error == Some(NotAuthenticatedMessage)
      ensures sent.Some? ==>
        loading && error == None && sent.value == Request(GET, VendorQuotesPath(vendorId.value), token, NoBody)
    {
      if !Truthy(vendorId) || !Truthy(token) {
        loading := false;
        error := Some(NotAuthenticatedMessage);
        return None;
      }
      loading := true;
      error := None;
      sent := Some(Request(GET, VendorQuotesPath(vendorId.value), token, NoBody));
    }

    /**
     * The fetch settles: an ok reply's list is stored as it came; any failure
     * sets the error (its message or the fallback) and keeps the list.
     */
    method FinishFetch(o: Outcome<seq<Quote>>)
      requires loading
      modifies this
      ensures !loading
      ensures CheckOk(o).Success? ==> quotes == CheckOk(o).value && error == old(error)
      ensures CheckOk(o).Failure? ==>
        quotes == old(quotes) && error == Some(MessageOr(CheckOk(o).error, FetchQuotesFallback))
    {
      match CheckOk(o)
      case Success(data) =>
        quotes := data;
        loading := false;
      case Failure(message) =>
        error := Some(MessageOr(message, FetchQuotesFallback));
        loading := false;
    }

    /**
     * `handleAcceptQuote`: no request unless the plan succeeds; on an ok reply
     * the quote with this id is replaced by the reply; otherwise the list is
     * unchanged.
     */
    method AcceptQuote(quoteId: string, perCouple: PricePrompt, total: PricePrompt, reply: Outcome<Quote>)
      returns (sent: Option<Request>, alert: string)
      modifies this`quotes
      ensures PlanAccept(quoteId, perCouple, total, token).Failure? ==>
        sent == None && alert == PlanAccept(quoteId, perCouple, total, token).error && quotes == old(quotes)
      ensures PlanAccept(quoteId, perCouple, total, token).Success? ==>
        sent == Some(PlanAccept(quoteId, perCouple, total, token).value)
      ensures sent.Some? && CheckOkWithText(reply).Success? ==>
        quotes == PatchById(old(quotes), quoteId, reply.data) && alert == AcceptedAlert
      ensures sent.Some? && CheckOkWithText(reply).Failure? ==>
        quotes == old(quotes) && alert == AcceptErrorPrefix + CheckOkWithText(reply).error
    {
      var plan := PlanAccept(quoteId, perCouple, total, token);
      if plan.Failure? {
        return None, plan.error;
      }
      sent := Some(plan.value);
      match CheckOkWithText(reply)
      case Success(updated) =>
        quotes := PatchById(quotes, quoteId, updated);
        alert := AcceptedAlert;
      case Failure(message) =>
        alert := AcceptErrorPrefix + message;
    }

    /**
     * `handleDeclineQuote`: no request without a token; on an ok reply the
     * quote with this id is replaced by the reply; otherwise the list is
     * unchanged.
     */
    method DeclineQuote(quoteId: string, reason: Option<string>, reply: Outcome<Quote>)
      returns (sent: Option<Request>, alert: string)
      modifies this`quotes
      ensures PlanDecline(quoteId, reason, token).Failure? ==>
        sent == None && alert == MissingTokenAlert && quotes == old(quotes)
      ensures PlanDecline(quoteId, reason, token).Success? ==>
        sent == Some(PlanDecline(quoteId, reason, token).value)
      ensures sent.Some? && CheckOkWithText(reply).Success? ==>
        quotes == PatchById(old(quotes), quoteId, reply.data) && alert == DeclinedAlert
      ensures sent.Some? && CheckOkWithText(reply).Failure? ==>
        quotes == old(quotes) && alert == DeclineErrorPrefix + CheckOkWithText(reply).error
    {
      var plan := PlanDecline(quoteId, reason, token);
      if plan.Failure? {
        return None, plan.error;
      }
      sent := Some(plan.value);
      match CheckOkWithText(reply)
      case Success(updated) =>
        quotes := PatchById(quotes, quoteId, updated);
        alert := DeclinedAlert;
      case Failure(message) =>
        alert := DeclineErrorPrefix + message;
    }
  }

  /**
   * A page visit up to its first settled render: without a session no request
   * goes out and the auth message shows; a failed fetch shows an error and
   * never a list; an ok fetch shows exactly the server's list.
   */
  method VisitQuotesPage(vendorId: Option<string>, token: Option<string>, reply: Outcome<seq<Quote>>)
    returns (sent: Option<Request>, screen: Screen)
    ensures sent.Some? <==> Truthy(vendorId) && Truthy(token)
    ensures !Truthy(vendorId) ==> screen == AuthRequired(NotAuthenticatedMessage)
    ensures Truthy(vendorId) && !Truthy(token) ==> screen == QuotesError(NotAuthenticatedMessage)
    ensures sent.Some? && CheckOk(reply).Failure? ==>
      screen == QuotesError(MessageOr(CheckOk(reply).error, FetchQuotesFallback))
    ensures sent.Some? && CheckOk(reply).Success? ==>
      screen == if CheckOk(reply).value == [] then NoQuotes else QuoteCards(Cards(CheckOk(reply).value))
  {
    var view := new QuotesView(vendorId, token);
    sent := view.StartFetch();
    if sent.Some? {
      view.FinishFetch(reply);
      if CheckOk(reply).Failure? {
        FailureMessageNonEmpty(reply, FetchQuotesFallback);
      }
    }
    screen := view.Screen();
  }

  /**
   * Accepting on a list the mount fetch loaded: only invalid pricing can stop
   * the request, and then nothing changes; in every case the list keeps its
   * length and order and every quote with another id is untouched.
   */
  method AcceptAfterLoad(vendorId: Option<string>, token: Option<string>, loaded: seq<Quote>, quoteId: string,
                         perCouple: PricePrompt, total: PricePrompt, reply: Outcome<Quote>)
    returns (sent: Option<Request>, after: seq<Quote>)
    requires Truthy(vendorId) && Truthy(token)
    ensures sent.Some? <==> PricingValid(perCouple, total)
    ensures sent.None? ==> after == loaded
    ensures |after| == |loaded|
    ensures forall i :: 0 <= i < |loaded| && loaded[i].id != quoteId ==> after[i] == loaded[i]
    ensures forall i :: 0 <= i < |loaded| && loaded[i].id == quoteId ==>
      after[i] == if sent.Some? && CheckOkWithText(reply).Success? then reply.data else loaded[i]
  {
    var view := new QuotesView(vendorId, token);
    var listRequest := view.StartFetch();
    view.FinishFetch(Responded(200, "", loaded));
    var alert;
    sent, alert := view.AcceptQuote(quoteId, perCouple, total, reply);
    after := view.quotes;
  }
}
