/** Discrepancy detection: the two independent branches of basketProfiter,
    each reading only the top of the books it needs. */
module Detection {
  import opened Market
  import Sizing

  /** The triggering top-of-book prices: the basket's and each constituent's. */
  datatype Signal = Signal(basketPrice: int, priceA: int, priceB: int)

  /** The best quote of one side of a book, if any. */
  function Top(levels: seq<PriceLevel>): Option<int>
  {
    if levels == [] then None else Some(levels[0].price)
  }

  /** Branch 1: a basket bid and both constituent asks are quoted, and the two
      asks together exceed twice the basket bid. The bot then buys the basket. */
  function BuyBasketSignal(basket: PriceBook, stockA: PriceBook, stockB: PriceBook): (r: Option<Signal>)
    ensures r.Some? ==>
              && Top(basket.bids) == Some(r.value.basketPrice)
              && Top(stockA.asks) == Some(r.value.priceA) && Top(stockB.asks) == Some(r.value.priceB)
              && r.value.priceA + r.value.priceB > 2 * r.value.basketPrice
  {
    if basket.bids != [] && stockA.asks != [] && stockB.asks != [] then
      var s := Signal(basket.bids[0].price, stockA.asks[0].price, stockB.asks[0].price);
      if s.priceA + s.priceB > 2 * s.basketPrice then Some(s) else None
    else None
  }

  /** Branch 2, the mirror: a basket ask and both constituent bids are quoted,
      and the two bids together are below twice the basket ask. The bot then
      sells the basket. */
  function SellBasketSignal(basket: PriceBook, stockA: PriceBook, stockB: PriceBook): (r: Option<Signal>)
    ensures r.Some? ==>
              && Top(basket.asks) == Some(r.value.basketPrice)
              && Top(stockA.bids) == Some(r.value.priceA) && Top(stockB.bids) == Some(r.value.priceB)
              && r.value.priceA + r.value.priceB < 2 * r.value.basketPrice
  {
    if basket.asks != [] && stockA.bids != [] && stockB.bids != [] then
      var s := Signal(basket.asks[0].price, stockA.bids[0].price, stockB.bids[0].price);
      if s.priceA + s.priceB < 2 * s.basketPrice then Some(s) else None
    else None
  }

  /** The raw volume of a signal: find_vol on the basket price and the cheaper constituent. */
  function RawVolume(s: Signal): (r: int)
    ensures r <= s.priceA && r <= s.priceB && 2 * r <= s.basketPrice
    ensures r == s.priceA || r == s.priceB || r == s.basketPrice / 2
  {
    Sizing.FindVol(s.basketPrice, Min(s.priceA, s.priceB))
  }

  /** Branch 1 fires exactly when its three quotes are present and the
      discrepancy holds, and it reports those quotes. */
  lemma BuyBasketFiresIff(basket: PriceBook, stockA: PriceBook, stockB: PriceBook)
    ensures BuyBasketSignal(basket, stockA, stockB).Some? <==>
              Top(basket.bids).Some? && Top(stockA.asks).Some? && Top(stockB.asks).Some? &&
              Top(stockA.asks).value + Top(stockB.asks).value > 2 * Top(basket.bids).value
    ensures BuyBasketSignal(basket, stockA, stockB).Some? ==>
              BuyBasketSignal(basket, stockA, stockB).value ==
              Signal(Top(basket.bids).value, Top(stockA.asks).value, Top(stockB.asks).value)
  {
  }

  /** Branch 2 fires exactly when its three quotes are present and the
      discrepancy holds, and it reports those quotes. */
  lemma SellBasketFiresIff(basket: PriceBook, stockA: PriceBook, stockB: PriceBook)
    ensures SellBasketSignal(basket, stockA, stockB).Some? <==>
              Top(basket.asks).Some? && Top(stockA.bids).Some? && Top(stockB.bids).Some? &&
              Top(stockA.bids).value + Top(stockB.bids).value < 2 * Top(basket.asks).value
    ensures SellBasketSignal(basket, stockA, stockB).Some? ==>
              SellBasketSignal(basket, stockA, stockB).value ==
              Signal(Top(basket.asks).value, Top(stockA.bids).value, Top(stockB.bids).value)
  {
  }

  /** Each branch reads only the top of the sides it needs: books that agree
      there give the same signal, whatever lies deeper or on the other sides. */
  lemma SignalsReadOnlyTopOfBook(basket: PriceBook, stockA: PriceBook, stockB: PriceBook,
                                 basket': PriceBook, stockA': PriceBook, stockB': PriceBook)
    ensures Top(basket.bids) == Top(basket'.bids) && Top(stockA.asks) == Top(stockA'.asks) &&
            Top(stockB.asks) == Top(stockB'.asks) ==>
              BuyBasketSignal(basket, stockA, stockB) == BuyBasketSignal(basket', stockA', stockB')
    ensures Top(basket.asks) == Top(basket'.asks) && Top(stockA.bids) == Top(stockA'.bids) &&
            Top(stockB.bids) == Top(stockB'.bids) ==>
              SellBasketSignal(basket, stockA, stockB) == SellBasketSignal(basket', stockA', stockB')
  {
  }

  /** Basket bid 50 against constituent asks 55 and 56: 111 > 100 fires branch 1,
      with raw volume floor(50 / 2) = 25; basket bid 100 against the same asks does not. */
  lemma BuyBasketExample()
    ensures var asks55 := PriceBook([], [PriceLevel(55, 1)]);
            var asks56 := PriceBook([], [PriceLevel(56, 1)]);
            && BuyBasketSignal(PriceBook([PriceLevel(50, 1)], []), asks55, asks56) == Some(Signal(50, 55, 56))
            && RawVolume(Signal(50, 55, 56)) == 25
            && BuyBasketSignal(PriceBook([PriceLevel(100, 1)], []), asks55, asks56) == None
  {
  }
}
