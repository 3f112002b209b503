/** The arbitrage bot proper: cancel stale orders on a group, read the books,
    and for each branch that fires size the trade and place its three legs
    with compensation. */
module Bot {
  import opened Market
  import opened Sizing
  import opened Detection
  import opened Execution
  import opened ExchangeClient

  /** The ledger reports a position for each instrument of the group. */
  predicate Tracked(positions: map<Instrument, int>, g: Group)
  {
    g.basket in positions && forall i :: 0 <= i < |g.stocks| ==> g.stocks[i] in positions
  }

  predicate NonNegativeQuotes(book: PriceBook)
  {
    (forall i :: 0 <= i < |book.bids| ==> book.bids[i].price >= 0) &&
    (forall i :: 0 <= i < |book.asks| ==> book.asks[i].price >= 0)
  }

  predicate NonNegativeSignal(s: Signal)
  {
    s.basketPrice >= 0 && s.priceA >= 0 && s.priceB >= 0
  }

  /** Non-negative quotes give non-negative signals. */
  lemma QuotesGiveNonNegativeSignals(basket: PriceBook, stockA: PriceBook, stockB: PriceBook)
    requires NonNegativeQuotes(basket) && NonNegativeQuotes(stockA) && NonNegativeQuotes(stockB)
    ensures var buy := BuyBasketSignal(basket, stockA, stockB);
            buy.Some? ==> NonNegativeSignal(buy.value)
    ensures var sell := SellBasketSignal(basket, stockA, stockB);
            sell.Some? ==> NonNegativeSignal(sell.value)
  {
  }

  /** The arguments a branch passes to trade_with_market: the basket on
      `basketSide`, both constituents on the opposite side, each at its
      triggering quote. */
  function BranchPlan(g: Group, s: Signal, basketSide: Side, vol: int): (p: Plan)
    requires |g.stocks| >= 2
    ensures p.basket == g.basket && p.stockA == g.stocks[0] && p.stockB == g.stocks[1]
    ensures WellFormed(g) ==> DistinctInstruments(p)
    ensures p.basketSide == basketSide && Sign(p.stockSide) == -Sign(basketSide)
  {
    Plan(g.basket, s.basketPrice, basketSide, Opposite(basketSide), g.stocks[0], s.priceA, g.stocks[1], s.priceB, vol)
  }

  /** deleteOld: one cancel per instrument, in the order given. */
  method DeleteOld(e: Exchange, ids: seq<Instrument>)
    modifies e
    ensures e.trace == old(e.trace) + Deletes(ids)
    ensures e.positions == old(e.positions) && e.books == old(e.books) && e.sent == old(e.sent)
  {
    for i := 0 to |ids|
      invariant e.trace == old(e.trace) + Deletes(ids[..i])
      invariant e.positions == old(e.positions) && e.books == old(e.books) && e.sent == old(e.sent)
    {
      e.DeleteOrders(ids[i]);
      assert Deletes(ids[..i + 1]) == Deletes(ids[..i]) + [Delete(ids[i])];
    }
    assert ids[..|ids|] == ids;
  }

  /** The requests of each outcome of an attempt, appended one at a time
      after the requests sent before it. */
  lemma TraceOutcomes(p: Plan, accepted: seq<bool>, before: seq<Event>)
    requires |accepted| == 3
    ensures var legs := Legs(p);
            var t := before + AttemptTrace(p, accepted);
            && (!accepted[0] ==> t == before + [Insert(legs[0])] + [Delete(p.basket)])
            && (accepted[0] && !accepted[1] ==>
                  t == before + [Insert(legs[0])] + [Insert(legs[1])] + [Delete(p.basket)] + [Delete(p.stockA)])
            && (accepted[0] && accepted[1] && !accepted[2] ==>
                  t == before + [Insert(legs[0])] + [Insert(legs[1])] + [Insert(legs[2])] +
                       [Delete(p.stockA)] + [Delete(p.basket)] + [Delete(p.stockB)])
            && (accepted[0] && accepted[1] && accepted[2] ==>
                  t == before + [Insert(legs[0])] + [Insert(legs[1])] + [Insert(legs[2])])
  {
    AttemptOutcomes(p, accepted);
  }

  /** The positions after the first one, two or three legs, one fill at a time. */
  lemma FillsOneAtATime(p: Plan, positions: map<Instrument, int>, gateway: nat -> Reply, sent: nat)
    ensures var legs := Legs(p);
            var one := Applied(positions, legs[0], gateway(sent));
            var two := Applied(one, legs[1], gateway(sent + 1));
            && ApplyFills(positions, legs[..1], gateway, sent) == one
            && ApplyFills(positions, legs[..2], gateway, sent) == two
            && ApplyFills(positions, legs[..3], gateway, sent) == Applied(two, legs[2], gateway(sent + 2))
  {
    var legs := Legs(p);
    assert legs[..1] == [] + [legs[0]];
    assert legs[..2] == legs[..1] + [legs[1]];
    assert legs[..3] == legs[..2] + [legs[2]];
    ApplyFillsSnoc(positions, [], legs[0], gateway, sent);
    ApplyFillsSnoc(positions, legs[..1], legs[1], gateway, sent);
    ApplyFillsSnoc(positions, legs[..2], legs[2], gateway, sent);
  }

  /** When every leg fills completely, the basket moves by twice the volume
      in its direction and each constituent by the volume in the other. */
  lemma FullFillsMovePositions(p: Plan, positions: map<Instrument, int>, gateway: nat -> Reply, sent: nat)
    requires DistinctInstruments(p) && 0 <= p.vol
    requires p.basket in positions && p.stockA in positions && p.stockB in positions
    requires forall i :: 0 <= i < 3 ==> gateway(sent + i).Accepted? && gateway(sent + i).filled >= Legs(p)[i].volume
    ensures var r := ApplyFills(positions, Legs(p), gateway, sent);
            && r[p.basket] == positions[p.basket] + Sign(p.basketSide) * (2 * p.vol)
            && r[p.stockA] == positions[p.stockA] + Sign(p.stockSide) * p.vol
            && r[p.stockB] == positions[p.stockB] + Sign(p.stockSide) * p.vol
  {
    var legs := Legs(p);
    FillsOneAtATime(p, positions, gateway, sent);
    assert legs[..3] == legs;
    assert gateway(sent + 0).filled >= legs[0].volume;
    assert gateway(sent + 1).filled >= legs[1].volume;
    assert gateway(sent + 2).filled >= legs[2].volume;
  }

  /** The requests and positions at the end of each path of trade_with_market
      are those of the attempt. */
  lemma Settle(p: Plan, accepted: seq<bool>, gateway: nat -> Reply, sent0: nat,
               trace0: seq<Event>, positions0: map<Instrument, int>,
               trace: seq<Event>, positions: map<Instrument, int>, sent: nat)
    requires accepted == Replies(gateway, sent0)
    requires var legs := Legs(p);
             var one := Applied(positions0, legs[0], gateway(sent0));
             var two := Applied(one, legs[1], gateway(sent0 + 1));
             var three := Applied(two, legs[2], gateway(sent0 + 2));
             && (!accepted[0] ==>
                   trace == trace0 + [Insert(legs[0])] + [Delete(p.basket)] && positions == one && sent == sent0 + 1)
             && (accepted[0] && !accepted[1] ==>
                   trace == trace0 + [Insert(legs[0])] + [Insert(legs[1])] + [Delete(p.basket)] + [Delete(p.stockA)] &&
                   positions == two && sent == sent0 + 2)
             && (accepted[0] && accepted[1] && !accepted[2] ==>
                   trace == trace0 + [Insert(legs[0])] + [Insert(legs[1])] + [Insert(legs[2])] +
                            [Delete(p.stockA)] + [Delete(p.basket)] + [Delete(p.stockB)] &&
                   positions == three && sent == sent0 + 3)
             && (accepted[0] && accepted[1] && accepted[2] ==>
                   trace == trace0 + [Insert(legs[0])] + [Insert(legs[1])] + [Insert(legs[2])] &&
                   positions == three && sent == sent0 + 3)
    ensures trace == trace0 + AttemptTrace(p, accepted)
    ensures positions == ApplyFills(positions0, Legs(p)[..Submitted(accepted)], gateway, sent0)
    ensures sent == sent0 + Submitted(accepted)
  {
    TraceOutcomes(p, accepted, trace0);
    AttemptOutcomes(p, accepted);
    FillsOneAtATime(p, positions0, gateway, sent0);
  }

  /** trade_with_market: the basket leg at twice the volume, then stock A,
      then stock B, each sent only if the previous one was accepted, and the
      compensation row of the first rejected leg. */
  method TradeWithMarket(e: Exchange, basketId: Instrument, basketPrice: int, sideBasket: Side, sideStock: Side,
                         stockId: Instrument, stockPrice: int, stockBId: Instrument, stockBPrice: int, vol: int)
    modifies e
    ensures var p := Plan(basketId, basketPrice, sideBasket, sideStock, stockId, stockPrice, stockBId, stockBPrice, vol);
            var accepted := Replies(e.gateway, old(e.sent));
            && e.trace == old(e.trace) + AttemptTrace(p, accepted)
            && e.positions == ApplyFills(old(e.positions), Legs(p)[..Submitted(accepted)], e.gateway, old(e.sent))
            && e.sent == old(e.sent) + Submitted(accepted)
    ensures e.books == old(e.books)
  {
    ghost var p := Plan(basketId, basketPrice, sideBasket, sideStock, stockId, stockPrice, stockBId, stockBPrice, vol);
    ghost var accepted := Replies(e.gateway, e.sent);
    ghost var trace0, positions0, sent0 := e.trace, e.positions, e.sent;
    var basketOrder := Order(basketId, basketPrice, 2 * vol, sideBasket, Ioc);
    var stockOrder := Order(stockId, stockPrice, vol, sideStock, Ioc);
    var stockBOrder := Order(stockBId, stockBPrice, vol, sideStock, Ioc);
    assert Legs(p) == [basketOrder, stockOrder, stockBOrder];
    var r := e.InsertOrder(basketOrder);
    if r {
      var s := e.InsertOrder(stockOrder);
      if s {
        var t := e.InsertOrder(stockBOrder);
        if !t {
          e.DeleteOrders(stockId);
          e.DeleteOrders(basketId);
          e.DeleteOrders(stockBId);
          Settle(p, accepted, e.gateway, sent0, trace0, positions0, e.trace, e.positions, e.sent);
        } else {
          Settle(p, accepted, e.gateway, sent0, trace0, positions0, e.trace, e.positions, e.sent);
        }
      } else {
        e.DeleteOrders(basketId);
        e.DeleteOrders(stockId);
        Settle(p, accepted, e.gateway, sent0, trace0, positions0, e.trace, e.positions, e.sent);
      }
    } else {
      e.DeleteOrders(basketId);
      Settle(p, accepted, e.gateway, sent0, trace0, positions0, e.trace, e.positions, e.sent);
    }
  }

  /** The sizing of a branch: cap the raw volume on each constituent in turn,
      then cap twice the result on the basket in the opposite direction and
      halve it. */
  method SizeVolume(e: Exchange, basketId: Instrument, stocks: seq<Instrument>, raw: int, stockSign: int)
    returns (vol: int)
    requires basketId in e.positions && forall i :: 0 <= i < |stocks| ==> stocks[i] in e.positions
    ensures vol == FinalVolume(e.positions, basketId, stocks, raw, stockSign)
  {
    vol := raw;
    for i := 0 to |stocks|
      invariant vol == ChainCaps(e.positions, stocks[..i], raw, stockSign)
    {
      assert stocks[..i + 1][..i] == stocks[..i];
      vol := MaxTotalOrders(e.positions, stocks[i], vol, stockSign);
    }
    assert stocks[..|stocks|] == stocks;
    vol := MaxTotalOrders(e.positions, basketId, 2 * vol, -stockSign) / 2;
  }

  /** A branch that fired, sized to `vol` from positions within the limit and
      non-negative quotes, keeps every instrument within the limit however
      much of each leg fills. */
  lemma BranchKeepsLimit(positions: map<Instrument, int>, g: Group, s: Signal, basketSide: Side,
                         gateway: nat -> Reply, sent: nat)
    requires WellFormed(g) && Tracked(positions, g) && WithinLimit(positions) && NonNegativeSignal(s)
    ensures var vol := FinalVolume(positions, g.basket, g.stocks, RawVolume(s), -Sign(basketSide));
            var legs := Legs(BranchPlan(g, s, basketSide, vol));
            forall n :: 0 <= n <= 3 ==> WithinLimit(ApplyFills(positions, legs[..n], gateway, sent))
  {
    var stockSign := -Sign(basketSide);
    var raw := RawVolume(s);
    var vol := FinalVolume(positions, g.basket, g.stocks, raw, stockSign);
    var legs := Legs(BranchPlan(g, s, basketSide, vol));
    FinalVolumeWithinLimit(positions, g.basket, g.stocks, raw, stockSign);
    assert Sign(Opposite(basketSide)) == stockSign;
    forall n | 0 <= n <= 3 ensures WithinLimit(ApplyFills(positions, legs[..n], gateway, sent)) {
      FillsKeepLimit(positions, legs[..n], gateway, sent);
    }
  }

  /** What the client records: the requests sent, the ledger, and the number of inserts sent. */
  datatype ClientState = ClientState(trace: seq<Event>, positions: map<Instrument, int>, sent: nat)

  /** The effect of one branch of basketProfiter on the client: nothing when
      its signal did not fire or the sized volume is not positive; otherwise
      the attempt of its plan, with the ledger moved by the submitted legs. */
  function Branch(g: Group, signal: Option<Signal>, basketSide: Side, gateway: nat -> Reply, st: ClientState)
    : (r: ClientState)
    requires WellFormed(g) && Tracked(st.positions, g)
    ensures r.positions.Keys == st.positions.Keys
  {
    if signal.None? then st
    else
      var vol := FinalVolume(st.positions, g.basket, g.stocks, RawVolume(signal.value), -Sign(basketSide));
      if vol <= 0 then st
      else
        var p := BranchPlan(g, signal.value, basketSide, vol);
        var accepted := Replies(gateway, st.sent);
        ClientState(st.trace + AttemptTrace(p, accepted),
                    ApplyFills(st.positions, Legs(p)[..Submitted(accepted)], gateway, st.sent),
                    st.sent + Submitted(accepted))
  }

  /** A branch keeps what was sent before and adds requests about its group only. */
  lemma BranchOnGroup(g: Group, signal: Option<Signal>, basketSide: Side, gateway: nat -> Reply, st: ClientState)
    requires WellFormed(g) && Tracked(st.positions, g)
    ensures ExtendsOnGroup(st.trace, Branch(g, signal, basketSide, gateway, st).trace, g)
  {
    var r := Branch(g, signal, basketSide, gateway, st);
    if signal.Some? {
      var vol := FinalVolume(st.positions, g.basket, g.stocks, RawVolume(signal.value), -Sign(basketSide));
      if vol > 0 {
        var p := BranchPlan(g, signal.value, basketSide, vol);
        var accepted := Replies(gateway, st.sent);
        assert r.trace == st.trace + AttemptTrace(p, accepted);
        AttemptOnGroup(g, p, accepted, st.trace);
        return;
      }
    }
    assert r.trace == st.trace;
    ExtendsOnGroupRefl(st.trace, g);
  }

  /** From positions within the limit and a non-negative signal, a branch
      keeps every position within the limit, whatever the gateway answers. */
  lemma BranchEffectKeepsLimit(g: Group, signal: Option<Signal>, basketSide: Side, gateway: nat -> Reply,
                               st: ClientState)
    requires WellFormed(g) && Tracked(st.positions, g) && WithinLimit(st.positions)
    requires signal.Some? ==> NonNegativeSignal(signal.value)
    ensures WithinLimit(Branch(g, signal, basketSide, gateway, st).positions)
  {
    if signal.Some? {
      BranchKeepsLimit(st.positions, g, signal.value, basketSide, gateway, st.sent);
      var vol := FinalVolume(st.positions, g.basket, g.stocks, RawVolume(signal.value), -Sign(basketSide));
      var accepted := Replies(gateway, st.sent);
      assert 0 <= Submitted(accepted) <= 3;
    }
  }

  /** A fired branch with sized volume `vol`: nothing for a volume that is
      not positive, otherwise the attempt of the plan trade_with_market is
      given. */
  lemma FiredBranch(g: Group, s: Signal, basketSide: Side, gateway: nat -> Reply, st: ClientState, vol: int)
    requires WellFormed(g) && Tracked(st.positions, g)
    requires vol == FinalVolume(st.positions, g.basket, g.stocks, RawVolume(s), Sign(Opposite(basketSide)))
    ensures var p := Plan(g.basket, s.basketPrice, basketSide, Opposite(basketSide),
                          g.stocks[0], s.priceA, g.stocks[1], s.priceB, vol);
            var accepted := Replies(gateway, st.sent);
            Branch(g, Some(s), basketSide, gateway, st) ==
              if vol > 0 then
                ClientState(st.trace + AttemptTrace(p, accepted),
                            ApplyFills(st.positions, Legs(p)[..Submitted(accepted)], gateway, st.sent),
                            st.sent + Submitted(accepted))
              else st
  {
    assert Sign(Opposite(basketSide)) == -Sign(basketSide);
  }

  /** The body of a branch of basketProfiter once its signal has fired:
      size the trade, and trade only a positive volume. */
  method RunBranch(e: Exchange, g: Group, s: Signal, basketSide: Side)
    requires WellFormed(g) && Tracked(e.positions, g)
    modifies e
    ensures ClientState(e.trace, e.positions, e.sent) ==
            Branch(g, Some(s), basketSide, e.gateway, old(ClientState(e.trace, e.positions, e.sent)))
    ensures e.books == old(e.books)
    ensures ExtendsOnGroup(old(e.trace), e.trace, g)
    ensures WithinLimit(old(e.positions)) && NonNegativeSignal(s) ==> WithinLimit(e.positions)
  {
    ghost var st := ClientState(e.trace, e.positions, e.sent);
    var stockSide := Opposite(basketSide);
    var vol := SizeVolume(e, g.basket, g.stocks, FindVol(s.basketPrice, Min(s.priceA, s.priceB)), Sign(stockSide));
    FiredBranch(g, s, basketSide, e.gateway, st, vol);
    if vol > 0 {
      TradeWithMarket(e, g.basket, s.basketPrice, basketSide, stockSide,
                      g.stocks[0], s.priceA, g.stocks[1], s.priceB, vol);
    }
    BranchOnGroup(g, Some(s), basketSide, e.gateway, st);
    if WithinLimit(st.positions) && NonNegativeSignal(s) {
      BranchEffectKeepsLimit(g, Some(s), basketSide, e.gateway, st);
    }
  }

  /** The requests a branch adds keep what was sent before and are about the group. */
  predicate ExtendsOnGroup(before: seq<Event>, after: seq<Event>, g: Group)
    requires |g.stocks| >= 2
  {
    |after| >= |before| && after[..|before|] == before &&
    forall k :: |before| <= k < |after| ==> Subject(after[k]) in {g.basket, g.stocks[0], g.stocks[1]}
  }

  lemma ExtendsOnGroupRefl(t: seq<Event>, g: Group)
    requires |g.stocks| >= 2
    ensures ExtendsOnGroup(t, t, g)
  {
    assert t[..|t|] == t;
  }

  lemma ExtendsOnGroupTrans(a: seq<Event>, b: seq<Event>, c: seq<Event>, g: Group)
    requires |g.stocks| >= 2 && ExtendsOnGroup(a, b, g) && ExtendsOnGroup(b, c, g)
    ensures ExtendsOnGroup(a, c, g)
  {
    assert c[..|a|] == b[..|b|][..|a|];
    forall k | |a| <= k < |c| ensures Subject(c[k]) in {g.basket, g.stocks[0], g.stocks[1]} {
      if k < |b| {
        assert c[k] == b[k];
      }
    }
  }

  /** An attempt of a branch of group `g` adds requests about the group only. */
  lemma AttemptOnGroup(g: Group, p: Plan, accepted: seq<bool>, before: seq<Event>)
    requires |g.stocks| >= 2 && |accepted| == 3
    requires p.basket == g.basket && p.stockA == g.stocks[0] && p.stockB == g.stocks[1]
    ensures ExtendsOnGroup(before, before + AttemptTrace(p, accepted), g)
  {
    var t := AttemptTrace(p, accepted);
    AttemptStaysOnPlan(p, accepted);
    assert (before + t)[..|before|] == before;
    forall k | |before| <= k < |before + t|
      ensures Subject((before + t)[k]) in {g.basket, g.stocks[0], g.stocks[1]}
    {
      assert (before + t)[k] == t[k - |before|];
    }
  }

  /** The effect of basketProfiter on the client: one cancel per instrument
      of the group (stocks, then basket), then the buy-basket branch, then the
      sell-basket branch from the state the first one left, both on the
      signals of the same book snapshots. */
  function Profiter(g: Group, books: map<Instrument, PriceBook>, gateway: nat -> Reply, st: ClientState)
    : (r: ClientState)
    requires WellFormed(g) && Tracked(st.positions, g)
    requires g.basket in books && g.stocks[0] in books && g.stocks[1] in books
    ensures r.positions.Keys == st.positions.Keys
  {
    var basketBook, stockABook, stockBBook := books[g.basket], books[g.stocks[0]], books[g.stocks[1]];
    var cleaned := ClientState(st.trace + Deletes(Members(g)), st.positions, st.sent);
    var afterBuy := Branch(g, BuyBasketSignal(basketBook, stockABook, stockBBook), Bid, gateway, cleaned);
    Branch(g, SellBasketSignal(basketBook, stockABook, stockBBook), Ask, gateway, afterBuy)
  }

  /** The record of basketProfiter starts with the cleanup of the group, and
      every request after it is about the group. */
  lemma ProfiterCleansFirst(g: Group, books: map<Instrument, PriceBook>, gateway: nat -> Reply, st: ClientState)
    requires WellFormed(g) && Tracked(st.positions, g)
    requires g.basket in books && g.stocks[0] in books && g.stocks[1] in books
    ensures ExtendsOnGroup(st.trace + Deletes(Members(g)), Profiter(g, books, gateway, st).trace, g)
  {
    var basketBook, stockABook, stockBBook := books[g.basket], books[g.stocks[0]], books[g.stocks[1]];
    var cleaned := ClientState(st.trace + Deletes(Members(g)), st.positions, st.sent);
    var buy := BuyBasketSignal(basketBook, stockABook, stockBBook);
    var afterBuy := Branch(g, buy, Bid, gateway, cleaned);
    BranchOnGroup(g, buy, Bid, gateway, cleaned);
    BranchOnGroup(g, SellBasketSignal(basketBook, stockABook, stockBBook), Ask, gateway, afterBuy);
    ExtendsOnGroupTrans(cleaned.trace, afterBuy.trace, Profiter(g, books, gateway, st).trace, g);
  }

  /** From positions within the limit and non-negative quotes on the group's
      books, basketProfiter keeps every position within the limit. */
  lemma ProfiterKeepsLimit(g: Group, books: map<Instrument, PriceBook>, gateway: nat -> Reply, st: ClientState)
    requires WellFormed(g) && Tracked(st.positions, g) && WithinLimit(st.positions)
    requires g.basket in books && g.stocks[0] in books && g.stocks[1] in books
    requires NonNegativeQuotes(books[g.basket]) && NonNegativeQuotes(books[g.stocks[0]]) &&
             NonNegativeQuotes(books[g.stocks[1]])
    ensures WithinLimit(Profiter(g, books, gateway, st).positions)
  {
    var basketBook, stockABook, stockBBook := books[g.basket], books[g.stocks[0]], books[g.stocks[1]];
    var cleaned := ClientState(st.trace + Deletes(Members(g)), st.positions, st.sent);
    var buy := BuyBasketSignal(basketBook, stockABook, stockBBook);
    QuotesGiveNonNegativeSignals(basketBook, stockABook, stockBBook);
    BranchEffectKeepsLimit(g, buy, Bid, gateway, cleaned);
    BranchEffectKeepsLimit(g, SellBasketSignal(basketBook, stockABook, stockBBook), Ask, gateway,
                           Branch(g, buy, Bid, gateway, cleaned));
  }

  /** When neither branch fires, basketProfiter only cancels. */
  lemma ProfiterQuietWithoutSignal(g: Group, books: map<Instrument, PriceBook>, gateway: nat -> Reply, st: ClientState)
    requires WellFormed(g) && Tracked(st.positions, g)
    requires g.basket in books && g.stocks[0] in books && g.stocks[1] in books
    requires BuyBasketSignal(books[g.basket], books[g.stocks[0]], books[g.stocks[1]]).None?
    requires SellBasketSignal(books[g.basket], books[g.stocks[0]], books[g.stocks[1]]).None?
    ensures Profiter(g, books, gateway, st) == ClientState(st.trace + Deletes(Members(g)), st.positions, st.sent)
  {
  }

  /** basketProfiter: cancel every order on the group (stocks, then basket),
      read the three books, then run the buy-basket branch and the
      sell-basket branch in turn. */
  method BasketProfiter(e: Exchange, g: Group)
    requires WellFormed(g) && Tracked(e.positions, g)
    requires g.basket in e.books && g.stocks[0] in e.books && g.stocks[1] in e.books
    modifies e
    ensures e.books == old(e.books)
    ensures ClientState(e.trace, e.positions, e.sent) ==
            Profiter(g, e.books, e.gateway, old(ClientState(e.trace, e.positions, e.sent)))
    ensures ExtendsOnGroup(old(e.trace) + Deletes(Members(g)), e.trace, g)
    ensures WithinLimit(old(e.positions)) && NonNegativeQuotes(e.books[g.basket]) &&
            NonNegativeQuotes(e.books[g.stocks[0]]) && NonNegativeQuotes(e.books[g.stocks[1]]) ==>
              WithinLimit(e.positions)
  {
    ghost var st := ClientState(e.trace, e.positions, e.sent);
    ProfiterCleansFirst(g, e.books, e.gateway, st);
    if WithinLimit(e.positions) && NonNegativeQuotes(e.books[g.basket]) &&
       NonNegativeQuotes(e.books[g.stocks[0]]) && NonNegativeQuotes(e.books[g.stocks[1]]) {
      ProfiterKeepsLimit(g, e.books, e.gateway, st);
    }
    DeleteOld(e, Members(g));
    var basketBook := e.books[g.basket];
    var stockABook := e.books[g.stocks[0]];
    var stockBBook := e.books[g.stocks[1]];
    var buy := BuyBasketSignal(basketBook, stockABook, stockBBook);
    if buy.Some? {
      RunBranch(e, g, buy.value, Bid);
    }
    var sell := SellBasketSignal(basketBook, stockABook, stockBBook);
    if sell.Some? {
      RunBranch(e, g, sell.value, Ask);
    }
  }
}
