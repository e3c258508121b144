/**
 * The interface of the three helpers the dashboard controller imports from
 * its utilities module: `calculatePercentage`, `getChartData` and
 * `getInventories`. Their bodies are not part of this model, so they are
 * passed in as function values and every report is stated in terms of
 * exactly which calls it makes.
 */
module Features {
  import opened Wrappers
  import opened Records

  /** What `getChartData` sees of a document: its timestamp and, where selected, discount and total. */
  datatype ChartDoc = ChartDoc(createdAt: Date, discount: Option<int>, total: Option<int>)

  /** The argument object `{ length, today, docArr, property }` of `getChartData`. */
  datatype ChartRequest = ChartRequest(
    length: nat,
    today: Date,
    docArr: seq<ChartDoc>,
    property: Option<Field>)

  /** The per-category share returned by `getInventories`. */
  type CategoryShares = map<string, int>

  datatype Utils = Utils(
    calculatePercentage: (int, int) -> int,
    getChartData: ChartRequest -> seq<int>,
    getInventories: (seq<string>, nat) -> CategoryShares)

  /** A chart helper that answers every request with a series of the requested length. */
  ghost predicate SeriesSized(u: Utils)
  {
    forall req: ChartRequest {:trigger u.getChartData(req)} :: |u.getChartData(req)| == req.length
  }

  /** Products selected with `.select("createdAt")`. */
  function ProductStamps(ps: seq<Product>): seq<ChartDoc>
  {
    seq(|ps|, i requires 0 <= i < |ps| => ChartDoc(ps[i].createdAt, None, None))
  }

  /** Users selected with `.select("createdAt")`. */
  function UserStamps(us: seq<User>): seq<ChartDoc>
  {
    seq(|us|, i requires 0 <= i < |us| => ChartDoc(us[i].createdAt, None, None))
  }

  /** Orders selected with `.select("createdAt")`. */
  function OrderStamps(os: seq<Order>): seq<ChartDoc>
  {
    seq(|os|, i requires 0 <= i < |os| => ChartDoc(os[i].createdAt, None, None))
  }

  /** Orders with their discount and total (a full document or `.select(["createdAt", "discount", "total"])`). */
  function OrderDocs(os: seq<Order>): seq<ChartDoc>
  {
    seq(|os|, i requires 0 <= i < |os| => ChartDoc(os[i].createdAt, os[i].discount, os[i].total))
  }
}
