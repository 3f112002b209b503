/** Multi-leg execution, as a specification: the three IOC legs of one
    arbitrage attempt, the compensation table, and the sequence of gateway
    requests an attempt issues given the gateway's answers. */
module Execution {
  import opened Market

  /** Everything trade_with_market is given: the basket leg, the two
      constituent legs and the constituent volume. */
  datatype Plan = Plan(basket: Instrument, basketPrice: int, basketSide: Side, stockSide: Side,
                       stockA: Instrument, priceA: int, stockB: Instrument, priceB: int, vol: int)

  predicate DistinctInstruments(p: Plan)
  {
    p.basket != p.stockA && p.basket != p.stockB && p.stockA != p.stockB
  }

  /** The three orders of an attempt in submission order: basket, then stock A, then stock B. */
  function Legs(p: Plan): (legs: seq<Order>)
    ensures |legs| == 3
    ensures legs[0].id == p.basket && legs[1].id == p.stockA && legs[2].id == p.stockB
    ensures legs[0].price == p.basketPrice && legs[1].price == p.priceA && legs[2].price == p.priceB
    ensures legs[0].volume == 2 * legs[1].volume && legs[1].volume == legs[2].volume == p.vol
    ensures legs[0].side == p.basketSide && legs[1].side == legs[2].side == p.stockSide
    ensures forall i :: 0 <= i < 3 ==> legs[i].orderType == Ioc
    ensures DistinctInstruments(p) ==> forall i, j :: 0 <= i < j < 3 ==> legs[i].id != legs[j].id
  {
    [ Order(p.basket, p.basketPrice, 2 * p.vol, p.basketSide, Ioc),
      Order(p.stockA, p.priceA, p.vol, p.stockSide, Ioc),
      Order(p.stockB, p.priceB, p.vol, p.stockSide, Ioc) ]
  }

  /** The compensation table: the instruments cancelled, in order, when leg
      `failed` (0 basket, 1 stock A, 2 stock B) is rejected. */
  function Compensation(p: Plan, failed: nat): (ids: seq<Instrument>)
    requires failed < 3
    ensures |ids| == failed + 1
    ensures p.basket in ids
    ensures forall i :: 0 <= i < |ids| ==> ids[i] in [p.basket, p.stockA, p.stockB][..failed + 1]
  {
    var legIds := [p.basket, p.stockA, p.stockB];
    if failed == 0 then assert legIds[..1] == [p.basket]; [p.basket]
    else if failed == 1 then assert legIds[..2] == [p.basket, p.stockA]; [p.basket, p.stockA]
    else assert legIds[..3] == legIds; [p.stockA, p.basket, p.stockB]
  }

  /** The index of the first rejected leg, or the number of answers if none is. */
  function FirstRejection(accepted: seq<bool>): (k: nat)
    ensures k <= |accepted|
    ensures forall i :: 0 <= i < k ==> accepted[i]
    ensures k < |accepted| ==> !accepted[k]
  {
    if accepted == [] || !accepted[0] then 0 else 1 + FirstRejection(accepted[1..])
  }

  /** How many legs are submitted: up to and including the first rejected one. */
  function Submitted(accepted: seq<bool>): nat
    requires |accepted| == 3
  {
    var k := FirstRejection(accepted);
    if k < 3 then k + 1 else 3
  }

  /** The requests of one attempt when the gateway answers the legs with
      `accepted`: the legs up to the first rejection, then that rejection's
      row of the compensation table. */
  function AttemptTrace(p: Plan, accepted: seq<bool>): (t: seq<Event>)
    requires |accepted| == 3
    ensures Submitted(accepted) <= |t|
    ensures t[..Submitted(accepted)] == Inserts(Legs(p)[..Submitted(accepted)])
    ensures forall ev :: ev in t[Submitted(accepted)..] ==> ev.Delete?
    ensures FirstRejection(accepted) == 3 <==> |t| == Submitted(accepted)
  {
    var k := FirstRejection(accepted);
    Inserts(Legs(p)[..Submitted(accepted)]) + (if k < 3 then Deletes(Compensation(p, k)) else [])
  }

  /** The instruments a sequence of requests inserts orders on, with multiplicity. */
  function InsertedIds(t: seq<Event>): multiset<Instrument>
  {
    if t == [] then multiset{}
    else (if t[0].Insert? then multiset{t[0].order.id} else multiset{}) + InsertedIds(t[1..])
  }

  /** The instruments a sequence of requests cancels, with multiplicity. */
  function CancelledIds(t: seq<Event>): multiset<Instrument>
  {
    if t == [] then multiset{}
    else (if t[0].Delete? then multiset{t[0].id} else multiset{}) + CancelledIds(t[1..])
  }

  lemma {:induction false} IdsOfConcat(a: seq<Event>, b: seq<Event>)
    ensures InsertedIds(a + b) == InsertedIds(a) + InsertedIds(b)
    ensures CancelledIds(a + b) == CancelledIds(a) + CancelledIds(b)
    decreases |a|
  {
    if a == [] {
      assert a + b == b;
    } else {
      assert (a + b)[1..] == a[1..] + b;
      IdsOfConcat(a[1..], b);
    }
  }

  function OrderIds(orders: seq<Order>): (ids: seq<Instrument>)
    ensures |ids| == |orders| && forall i :: 0 <= i < |orders| ==> ids[i] == orders[i].id
  {
    if orders == [] then [] else [orders[0].id] + OrderIds(orders[1..])
  }

  lemma {:induction false} IdsOfInserts(orders: seq<Order>)
    ensures CancelledIds(Inserts(orders)) == multiset{}
    ensures InsertedIds(Inserts(orders)) == multiset(OrderIds(orders))
    decreases |orders|
  {
    if orders != [] {
      assert Inserts(orders)[1..] == Inserts(orders[1..]);
      IdsOfInserts(orders[1..]);
    }
  }

  lemma {:induction false} IdsOfDeletes(ids: seq<Instrument>)
    ensures InsertedIds(Deletes(ids)) == multiset{}
    ensures CancelledIds(Deletes(ids)) == multiset(ids)
    decreases |ids|
  {
    if ids != [] {
      assert Deletes(ids)[1..] == Deletes(ids[1..]);
      IdsOfDeletes(ids[1..]);
      assert ids == [ids[0]] + ids[1..];
    }
  }

  /** The basket leg is always submitted first, and a rejected basket leg ends
      the attempt with a single cancel on the basket: no constituent order. */
  lemma BasketLegFirst(p: Plan, accepted: seq<bool>)
    requires |accepted| == 3
    ensures AttemptTrace(p, accepted)[0] == Insert(Legs(p)[0])
    ensures !accepted[0] ==> AttemptTrace(p, accepted) == [Insert(Legs(p)[0]), Delete(p.basket)]
  {
  }

  /** The attempt written out for each of the four outcomes: the
      compensation table in full. */
  lemma AttemptOutcomes(p: Plan, accepted: seq<bool>)
    requires |accepted| == 3
    ensures var legs := Legs(p);
            var t := AttemptTrace(p, accepted);
            && (!accepted[0] ==>
                  Submitted(accepted) == 1 && t == [Insert(legs[0]), Delete(p.basket)])
            && (accepted[0] && !accepted[1] ==>
                  Submitted(accepted) == 2 &&
                  t == [Insert(legs[0]), Insert(legs[1]), Delete(p.basket), Delete(p.stockA)])
            && (accepted[0] && accepted[1] && !accepted[2] ==>
                  Submitted(accepted) == 3 &&
                  t == [Insert(legs[0]), Insert(legs[1]), Insert(legs[2]),
                        Delete(p.stockA), Delete(p.basket), Delete(p.stockB)])
            && (accepted[0] && accepted[1] && accepted[2] ==>
                  Submitted(accepted) == 3 && t == [Insert(legs[0]), Insert(legs[1]), Insert(legs[2])])
  {
    var legs := Legs(p);
    var k := FirstRejection(accepted);
    if !accepted[0] {
      assert k == 0;
      assert Inserts(legs[..1]) == [Insert(legs[0])];
      assert Deletes(Compensation(p, 0)) == [Delete(p.basket)];
    } else if !accepted[1] {
      assert k == 1;
      assert Inserts(legs[..2]) == [Insert(legs[0]), Insert(legs[1])];
      assert Deletes(Compensation(p, 1)) == [Delete(p.basket), Delete(p.stockA)];
    } else if !accepted[2] {
      assert k == 2;
      assert Inserts(legs[..3]) == [Insert(legs[0]), Insert(legs[1]), Insert(legs[2])];
      assert Deletes(Compensation(p, 2)) == [Delete(p.stockA), Delete(p.basket), Delete(p.stockB)];
    } else {
      assert k == 3;
      assert Inserts(legs[..3]) == [Insert(legs[0]), Insert(legs[1]), Insert(legs[2])];
    }
  }

  /** Every request of an attempt is about one of the plan's three instruments. */
  lemma AttemptStaysOnPlan(p: Plan, accepted: seq<bool>)
    requires |accepted| == 3
    ensures var t := AttemptTrace(p, accepted);
            forall k :: 0 <= k < |t| ==> Subject(t[k]) in {p.basket, p.stockA, p.stockB}
  {
    AttemptOutcomes(p, accepted);
  }

  /** An attempt ends with a cancel exactly when one of its legs was rejected. */
  lemma RejectionEndsWithCancel(p: Plan, accepted: seq<bool>)
    requires |accepted| == 3
    ensures var t := AttemptTrace(p, accepted);
            |t| > 0 && (t[|t| - 1].Delete? <==> FirstRejection(accepted) < 3)
  {
    AttemptOutcomes(p, accepted);
  }

  /** Leg j is submitted if and only if every earlier leg was accepted. */
  lemma LegSubmittedIffEarlierAccepted(p: Plan, accepted: seq<bool>, j: nat)
    requires |accepted| == 3 && j < 3 && DistinctInstruments(p)
    ensures Insert(Legs(p)[j]) in AttemptTrace(p, accepted) <==> forall i :: 0 <= i < j ==> accepted[i]
  {
    var k := FirstRejection(accepted);
    var legs := Legs(p);
    var sent := legs[..Submitted(accepted)];
    var t := AttemptTrace(p, accepted);
    var tail := if k < 3 then Deletes(Compensation(p, k)) else [];
    assert t == Inserts(sent) + tail;
    if Insert(legs[j]) in t {
      var n :| 0 <= n < |t| && t[n] == Insert(legs[j]);
      assert n < |sent|;
      assert sent[n] == legs[n];
      assert n == j;
    }
    if forall i :: 0 <= i < j ==> accepted[i] {
      assert t[j] == Insert(legs[j]);
    }
  }

  /** What an attempt inserts and cancels, instrument by instrument. */
  lemma AttemptIds(p: Plan, accepted: seq<bool>)
    requires |accepted| == 3
    ensures var t := AttemptTrace(p, accepted);
            var k := FirstRejection(accepted);
            && InsertedIds(t) == multiset(OrderIds(Legs(p)[..Submitted(accepted)]))
            && CancelledIds(t) == if k < 3 then multiset(Compensation(p, k)) else multiset{}
  {
    var k := FirstRejection(accepted);
    var sent := Legs(p)[..Submitted(accepted)];
    var tail := if k < 3 then Deletes(Compensation(p, k)) else [];
    IdsOfConcat(Inserts(sent), tail);
    IdsOfInserts(sent);
    if k < 3 {
      IdsOfDeletes(Compensation(p, k));
    } else {
      assert tail == [];
    }
  }

  /** The instruments of the first `n` legs. */
  lemma LegIds(p: Plan, n: nat)
    requires n <= 3
    ensures OrderIds(Legs(p)[..n]) == [p.basket, p.stockA, p.stockB][..n]
  {
  }

  /** Row k of the compensation table cancels exactly the legs submitted up to leg k. */
  lemma CompensationRows(p: Plan, k: nat, n: nat)
    requires k < 3 && n == k + 1
    ensures multiset(Compensation(p, k)) == multiset([p.basket, p.stockA, p.stockB][..n])
  {
    var all := [p.basket, p.stockA, p.stockB];
    if k == 0 {
      assert all[..n] == [p.basket];
    } else if k == 1 {
      assert all[..n] == [p.basket, p.stockA];
    } else {
      assert all[..n] == all;
    }
  }

  /** Legs on distinct instruments are each on an instrument at most once. */
  lemma SubmittedOnce(p: Plan, n: nat)
    requires DistinctInstruments(p) && n <= 3
    ensures forall id :: multiset([p.basket, p.stockA, p.stockB][..n])[id] <= 1
  {
    var all := [p.basket, p.stockA, p.stockB];
    if n == 0 {
      assert all[..n] == [];
    } else if n == 1 {
      assert all[..n] == [p.basket];
    } else if n == 2 {
      assert all[..n] == [p.basket, p.stockA];
    } else {
      assert all[..n] == all;
    }
  }

  /** After a rejection, every instrument an order was inserted on is
      cancelled exactly once, and nothing else is; after three acceptances
      nothing is cancelled. */
  lemma CompensationCancelsEachSubmittedOnce(p: Plan, accepted: seq<bool>)
    requires |accepted| == 3 && DistinctInstruments(p)
    ensures var t := AttemptTrace(p, accepted);
            && (FirstRejection(accepted) == 3 ==> CancelledIds(t) == multiset{})
            && (FirstRejection(accepted) < 3 ==> CancelledIds(t) == InsertedIds(t))
            && forall id :: InsertedIds(t)[id] <= 1
  {
    AttemptIds(p, accepted);
    LegIds(p, Submitted(accepted));
    if FirstRejection(accepted) < 3 {
      CompensationRows(p, FirstRejection(accepted), Submitted(accepted));
    }
    SubmittedOnce(p, Submitted(accepted));
  }
}
