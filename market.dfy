/** Vocabulary shared by the basket-arbitrage bot and the exchange it trades on:
    instruments, sides, IOC orders, the events the bot sends to the exchange,
    top-of-book price levels and the basket groups it watches. Prices are whole
    ticks. */
module Market {

  type Instrument = string

  /** Largest absolute position the bot lets any instrument reach. */
  const PositionLimit: int := 500

  datatype Option<+T> = None | Some(value: T)

  datatype Side = Bid | Ask

  /** Change of position per lot traded on this side: a bid buys, an ask sells. */
  function Sign(side: Side): int
  {
    if side == Bid then 1 else -1
  }

  function Opposite(side: Side): Side
  {
    if side == Bid then Ask else Bid
  }

  datatype OrderType = Ioc | Limit

  datatype Order = Order(id: Instrument, price: int, volume: int, side: Side, orderType: OrderType)

  /** One request sent to the exchange's order gateway. */
  datatype Event = Insert(order: Order) | Delete(id: Instrument)

  function Inserts(orders: seq<Order>): seq<Event>
  {
    seq(|orders|, i requires 0 <= i < |orders| => Insert(orders[i]))
  }

  function Deletes(ids: seq<Instrument>): seq<Event>
  {
    seq(|ids|, i requires 0 <= i < |ids| => Delete(ids[i]))
  }

  /** The instrument a request is about. */
  function Subject(ev: Event): Instrument
  {
    if ev.Insert? then ev.order.id else ev.id
  }

  datatype PriceLevel = PriceLevel(price: int, volume: nat)

  /** A book snapshot: bids best first (descending), asks best first (ascending). */
  datatype PriceBook = PriceBook(bids: seq<PriceLevel>, asks: seq<PriceLevel>)

  /** A basket and the constituents whose sum it tracks. */
  datatype Group = Group(basket: Instrument, stocks: seq<Instrument>)

  /** Two constituents are traded; the three traded instruments are distinct. */
  predicate WellFormed(g: Group)
  {
    |g.stocks| >= 2 &&
    g.basket != g.stocks[0] && g.basket != g.stocks[1] && g.stocks[0] != g.stocks[1]
  }

  /** The instruments cancelled before a group is evaluated: stocks, then basket. */
  function Members(g: Group): (m: seq<Instrument>)
    ensures forall id :: id in m <==> id == g.basket || id in g.stocks
    ensures |m| > 0 && m[|m| - 1] == g.basket
    ensures WellFormed(g) && |g.stocks| == 2 ==> forall i, j :: 0 <= i < j < |m| ==> m[i] != m[j]
  {
    g.stocks + [g.basket]
  }

  const GreenEnergy: Group := Group("C2_GREEN_ENERGY_ETF", ["C2_SOLAR_CO", "C2_WIND_LTD"])

  const FossilFuel: Group := Group("C1_FOSSIL_FUEL_ETF", ["C1_GAS_INC", "C1_OIL_CORP"])

  /** Both groups the bot trades name two constituents and three distinct instruments. */
  lemma GroupsWellFormed()
    ensures WellFormed(GreenEnergy) && WellFormed(FossilFuel)
    ensures |GreenEnergy.stocks| == 2 && |FossilFuel.stocks| == 2
  {
  }

  function Abs(x: int): nat
  {
    if x < 0 then -x else x
  }

  function Min(a: int, b: int): int
  {
    if a <= b then a else b
  }

  /** Every listed instrument has a position, and none is beyond the limit. */
  predicate Bounded(positions: map<Instrument, int>, ids: seq<Instrument>)
  {
    forall i :: 0 <= i < |ids| ==> ids[i] in positions && Abs(positions[ids[i]]) <= PositionLimit
  }

  predicate WithinLimit(positions: map<Instrument, int>)
  {
    forall id :: id in positions ==> Abs(positions[id]) <= PositionLimit
  }
}
