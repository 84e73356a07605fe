/** The values the client receives from the intake form and from the server. */
module Entities {
  import opened Wrappers

  /** A couple's search criteria; `budget` is the raw text of a numeric form field. */
  datatype Criteria = Criteria(date: string, city: string, style: string, budget: string)

  type PositiveInt = n: int | n > 0 witness 1

  /** A server-computed group deal for one service category. */
  datatype Deal = Deal(service: string, matchedCouples: PositiveInt, totalCost: real)

  /** The price pair a vendor attaches when accepting a quote. */
  datatype Pricing = Pricing(perCouple: real, total: real)

  /**
   * A quote request as the vendor sees it. `status` is the server's string
   * ("pending", "accepted" or "declined"); `pricing` is absent until set.
   */
  datatype Quote = Quote(id: string, service: string, status: string, pricing: Option<Pricing>, requestedAt: string)
}
