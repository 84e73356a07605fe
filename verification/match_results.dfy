/**
 * The match results view: without onboarding criteria it redirects home;
 * otherwise it fetches the group deals once, shows a loading, error or list
 * screen, derives each deal's per-couple price and savings, and lets the
 * couple request a quote without touching the view's state.
 */
module Matches {
  import opened Wrappers
  import opened Entities
  import opened Api
  import opened JsString

  const HomePath := "/"
  const QuotesPath := "/api/quotes"
  const FetchMatchesFallback := "Failed to fetch matches."

  /**
   * `Number.prototype.toFixed(0)` on an exact value: the nearest integer,
   * ties rounded away from zero.
   */
  function ToFixed0(x: real): (n: int)
    ensures x - 0.5 <= n as real <= x + 0.5
    ensures x >= 0.0 ==> x - 0.5 < n as real
    ensures x < 0.0 ==> n as real < x + 0.5
  {
    if x >= 0.0 then (x + 0.5).Floor else -((-x + 0.5).Floor)
  }

  /** The displayed per-couple price: total cost shared by the matched couples, to whole units. */
  function PerCouple(deal: Deal): (n: int)
    ensures deal.totalCost / deal.matchedCouples as real - 0.5 <= n as real <= deal.totalCost / deal.matchedCouples as real + 0.5
  {
    ToFixed0(deal.totalCost / deal.matchedCouples as real)
  }

  /** A cost that splits evenly gives exactly the share. */
  lemma PerCoupleOfEvenSplit(deal: Deal, share: int)
    requires deal.totalCost == share as real * deal.matchedCouples as real
    ensures PerCouple(deal) == share
  {
    assert deal.totalCost / deal.matchedCouples as real == share as real;
  }

  /**
   * The savings shown for a deal: the budget minus the per-couple price when
   * that is positive, else zero; `None` is a budget that does not coerce to a
   * number, and every comparison with NaN is false.
   */
  function Savings(budget: Option<real>, perCouple: int): (saved: real)
    ensures saved >= 0.0
    ensures saved > 0.0 <==> budget.Some? && budget.value > perCouple as real
    ensures saved > 0.0 ==> saved == budget.value - perCouple as real
  {
    match budget
    case None => 0.0
    case Some(b) =>
      var diff := b - perCouple as real;
      if diff > 0.0 then (if diff < 0.0 then -diff else diff) else 0.0
  }

  /** A 1200 deal shared by 5 couples costs 240 each, saving 60 on a 300 budget and nothing on 200. */
  lemma FlowersExample()
    ensures PerCouple(Deal("Flowers", 5, 1200.0)) == 240
    ensures Savings(Some(300.0), 240) == 60.0
    ensures Savings(Some(200.0), 240) == 0.0
  {
    PerCoupleOfEvenSplit(Deal("Flowers", 5, 1200.0), 240);
  }

  /** One rendered deal; the savings line shows only when `saved` is positive. */
  datatype DealCard = DealCard(service: string, matchedCouples: int, perCouple: int, saved: real, showSavings: bool)

  function Card(deal: Deal, budget: Option<real>): (c: DealCard)
    ensures c.service == deal.service && c.matchedCouples == deal.matchedCouples
    ensures c.perCouple == PerCouple(deal) && c.saved == Savings(budget, PerCouple(deal))
    ensures c.showSavings <==> budget.Some? && budget.value > PerCouple(deal) as real
  {
    var perCouple := PerCouple(deal);
    var saved := Savings(budget, perCouple);
    DealCard(deal.service, deal.matchedCouples, perCouple, saved, saved > 0.0)
  }

  /** One card per deal, in the server's order. */
  function Cards(deals: seq<Deal>, budget: Option<real>): (cs: seq<DealCard>)
    ensures |cs| == |deals|
    ensures forall i :: 0 <= i < |deals| ==> cs[i] == Card(deals[i], budget)
  {
    seq(|deals|, i requires 0 <= i < |deals| => Card(deals[i], budget))
  }

  /** The view's render result, in the order its early returns are tried. */
  datatype Screen =
    | Redirect(to: string)
    | LoadingMatches
    | MatchError(message: string, goHome: string)
    | NoMatches
    | DealList(cards: seq<DealCard>)

  /**
   * Render precedence: no criteria redirects home; then loading; then a
   * truthy error with its go-home action; then the deals, or the no-matches
   * message when the list is empty or absent.
   */
  function Render(onboarding: Option<Criteria>, budget: Option<real>, loading: bool, error: Option<string>,
                  matches: Option<seq<Deal>>): (s: Screen)
    ensures onboarding.None? <==> s == Redirect(HomePath)
    ensures onboarding.Some? ==> (loading <==> s == LoadingMatches)
    ensures onboarding.Some? && !loading && Truthy(error) ==> s == MatchError(error.value, HomePath)
    ensures s.DealList? ==>
      onboarding.Some? && !loading && !Truthy(error) && matches.Some? && s.cards == Cards(matches.value, budget)
    ensures s.MatchError? ==> Truthy(error) && s == MatchError(error.value, HomePath)
    ensures onboarding.Some? && !loading && !Truthy(error) && matches.Some? && matches.value != [] ==>
      s == DealList(Cards(matches.value, budget))
    ensures s.NoMatches? <==>
      onboarding.Some? && !loading && !Truthy(error) && (matches.None? || matches.value == [])
  {
    if onboarding.None? then Redirect(HomePath)
    else if loading then LoadingMatches
    else if Truthy(error) then MatchError(error.value, HomePath)
    else if matches.Some? && |matches.value| > 0 then DealList(Cards(matches.value, budget))
    else NoMatches
  }

  /** The page's state once it has criteria: the three state hooks. */
  class MatchView {
    const onboarding: Criteria
    var matches: Option<seq<Deal>>
    var loading: bool
    var error: Option<string>

    function Screen(budget: Option<real>): Screen
      reads this
    {
      Render(Some(onboarding), budget, loading, error, matches)
    }

    /** First render: an empty list, loading, no error. */
    constructor (onboarding: Criteria)
      ensures this.onboarding == onboarding
      ensures matches == Some([]) && loading && error == None
    {
      this.onboarding := onboarding;
      matches := Some([]);
      loading := true;
      error := None;
    }

    /** The mount effect up to the request: loading, no error, and the matches query issued. */
    method StartFetch() returns (sent: Request)
      modifies this
      ensures loading && error == None && matches == old(matches)
      ensures sent == MatchesRequest(onboarding)
    {
      loading := true;
      error := None;
      sent := MatchesRequest(onboarding);
    }

    /**
     * The fetch settles: an ok reply's list (possibly null) is stored as it
     * came, in server order; any failure sets the error (its message or the
     * fallback) and keeps the list.
     */
    method FinishFetch(o: Outcome<Option<seq<Deal>>>)
      requires loading
      modifies this
      ensures !loading
      ensures CheckOk(o).Success? ==> matches == CheckOk(o).value && error == old(error)
      ensures CheckOk(o).Failure? ==>
        matches == old(matches) && error == Some(MessageOr(CheckOk(o).error, FetchMatchesFallback))
    {
      match CheckOk(o)
      case Success(data) =>
        matches := data;
        loading := false;
      case Failure(message) =>
        error := Some(MessageOr(message, FetchMatchesFallback));
        loading := false;
    }

    /**
     * The Request Quote button: POSTs the service, its per-couple price and
     * the criteria, and reports the outcome in an alert. It modifies nothing,
     * so the list, the loading flag and the error stay as they were.
     */
    method RequestQuote(deal: Deal, reply: Outcome<string>) returns (sent: Request, alert: string)
      ensures sent == Request(POST, QuotesPath, None, QuoteRequest(deal.service, PerCouple(deal), onboarding))
      ensures CheckOk(reply).Success? ==> alert == "Quote requested for " + deal.service + "! Details: " + reply.data
      ensures CheckOk(reply).Failure? ==> alert == "Failed to request quote for " + deal.service + ". Please try again."
    {
      sent := Request(POST, QuotesPath, None, QuoteRequest(deal.service, PerCouple(deal), onboarding));
      match CheckOk(reply)
      case Success(result) =>
        alert := "Quote requested for " + deal.service + "! Details: " + result;
      case Failure(_) =>
        alert := "Failed to request quote for " + deal.service + ". Please try again.";
    }
  }

  /**
   * A visit to the matches route up to its first settled render: without
   * criteria no request goes out and the view redirects home; a failed fetch
   * shows its error with the go-home action and never a deal; an ok fetch
   * shows the server's deals in order, or the no-matches message.
   */
  method VisitMatchesPage(onboarding: Option<Criteria>, budget: Option<real>, reply: Outcome<Option<seq<Deal>>>)
    returns (sent: Option<Request>, screen: Screen)
    ensures onboarding.None? ==> sent == None && screen == Redirect(HomePath)
    ensures onboarding.Some? ==> sent == Some(MatchesRequest(onboarding.value))
    ensures onboarding.Some? && CheckOk(reply).Failure? ==>
      screen == MatchError(MessageOr(CheckOk(reply).error, FetchMatchesFallback), HomePath)
    ensures onboarding.Some? && CheckOk(reply).Success? ==>
      screen == match CheckOk(reply).value
                case Some(deals) => if deals == [] then NoMatches else DealList(Cards(deals, budget))
                case None => NoMatches
  {
    if onboarding.None? {
      return None, Redirect(HomePath);
    }
    var view := new MatchView(onboarding.value);
    var request := view.StartFetch();
    sent := Some(request);
    view.FinishFetch(reply);
    if CheckOk(reply).Failure? {
      FailureMessageNonEmpty(reply, FetchMatchesFallback);
    }
    screen := view.Screen(budget);
  }

  /**
   * Requesting a quote from a loaded list leaves the rendered screen as it
   * was, whether the request succeeds or fails, and sends the deal's
   * displayed per-couple price.
   */
  method QuoteFromLoadedList(onboarding: Criteria, budget: Option<real>, deals: seq<Deal>, k: nat, reply: Outcome<string>)
    returns (sent: Request, before: Screen, after: Screen)
    requires k < |deals|
    ensures before == DealList(Cards(deals, budget)) && after == before
    ensures sent.body == QuoteRequest(deals[k].service, Cards(deals, budget)[k].perCouple, onboarding)
  {
    var view := new MatchView(onboarding);
    var request := view.StartFetch();
    view.FinishFetch(Responded(200, "", Some(deals)));
    before := view.Screen(budget);
    var alert;
    sent, alert := view.RequestQuote(deals[k], reply);
    after := view.Screen(budget);
  }
}
