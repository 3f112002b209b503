/** The exchange as the bot sees it through its client: the position ledger,
    the last book snapshot of each instrument, an order gateway whose answers
    are given in advance, and the record of every request the bot sends. */
module ExchangeClient {
  import opened Market
  import Sizing

  /** The gateway's answer to an insert: rejected, or accepted having traded
      `filled` lots at once (the rest of an IOC order is cancelled by the exchange). */
  datatype Reply = Rejected | Accepted(filled: nat)

  /** Lots an order of `volume` actually trades given the gateway's answer. */
  function Fill(reply: Reply, volume: int): (f: nat)
    ensures reply.Rejected? ==> f == 0
    ensures 0 <= volume ==> f <= volume
  {
    if reply.Accepted? && volume > 0 then Min(reply.filled, volume) else 0
  }

  /** Whether the gateway accepts the three legs sent from request number `sent` on. */
  function Replies(gateway: nat -> Reply, sent: nat): seq<bool>
  {
    [gateway(sent).Accepted?, gateway(sent + 1).Accepted?, gateway(sent + 2).Accepted?]
  }

  /** The ledger after one order is answered with `reply`: the position of
      its instrument moves by the lots filled, in the order's direction. An
      instrument the ledger does not list is not tracked. */
  function Applied(positions: map<Instrument, int>, o: Order, reply: Reply): (r: map<Instrument, int>)
    ensures r.Keys == positions.Keys
    ensures forall id :: id in positions && id != o.id ==> r[id] == positions[id]
    ensures o.id in positions ==> r[o.id] == positions[o.id] + Sign(o.side) * Fill(reply, o.volume)
  {
    if o.id in positions then positions[o.id := positions[o.id] + Sign(o.side) * Fill(reply, o.volume)]
    else positions
  }

  /** The positions after `orders` are sent one after another from request number `sent` on. */
  function ApplyFills(positions: map<Instrument, int>, orders: seq<Order>, gateway: nat -> Reply, sent: nat)
    : (r: map<Instrument, int>)
    ensures r.Keys == positions.Keys
    decreases |orders|
  {
    if orders == [] then positions
    else ApplyFills(Applied(positions, orders[0], gateway(sent)), orders[1..], gateway, sent + 1)
  }

  /** Sending one more order applies its fill after those of the earlier ones. */
  lemma {:induction false} ApplyFillsSnoc(positions: map<Instrument, int>, orders: seq<Order>, o: Order,
                                          gateway: nat -> Reply, sent: nat)
    ensures ApplyFills(positions, orders + [o], gateway, sent) ==
            Applied(ApplyFills(positions, orders, gateway, sent), o, gateway(sent + |orders|))
    decreases |orders|
  {
    if orders == [] {
      assert orders + [o] == [o];
      assert [o][1..] == [];
    } else {
      assert (orders + [o])[0] == orders[0];
      assert (orders + [o])[1..] == orders[1..] + [o];
      ApplyFillsSnoc(Applied(positions, orders[0], gateway(sent)), orders[1..], o, gateway, sent + 1);
    }
  }

  /** Sending orders moves no position but those of the instruments ordered. */
  lemma {:induction false} FillsLeaveOthers(positions: map<Instrument, int>, orders: seq<Order>,
                                            gateway: nat -> Reply, sent: nat, id: Instrument)
    requires id in positions && forall i :: 0 <= i < |orders| ==> orders[i].id != id
    ensures ApplyFills(positions, orders, gateway, sent)[id] == positions[id]
    decreases |orders|
  {
    if orders != [] {
      var rest := orders[1..];
      assert forall i :: 0 <= i < |rest| ==> rest[i] == orders[i + 1];
      FillsLeaveOthers(Applied(positions, orders[0], gateway(sent)), rest, gateway, sent + 1, id);
    }
  }

  /** Filling part of one admissible order keeps every position within the limit. */
  lemma FillWithinLimit(positions: map<Instrument, int>, o: Order, reply: Reply)
    requires WithinLimit(positions) && o.id in positions
    requires Sizing.Admissible(positions[o.id], Sign(o.side), o.volume) && 0 <= o.volume
    ensures WithinLimit(Applied(positions, o, reply))
  {
    Sizing.AdmissibleBelow(positions[o.id], Sign(o.side), o.volume, Fill(reply, o.volume));
  }

  /** Orders on distinct instruments, each of which would keep its instrument
      within the limit if it traded in full, keep every position within the
      limit however much of each is filled. */
  lemma {:induction false} FillsKeepLimit(positions: map<Instrument, int>, orders: seq<Order>,
                                          gateway: nat -> Reply, sent: nat)
    requires WithinLimit(positions)
    requires forall i :: 0 <= i < |orders| ==>
               orders[i].id in positions && 0 <= orders[i].volume &&
               Sizing.Admissible(positions[orders[i].id], Sign(orders[i].side), orders[i].volume)
    requires forall i, j :: 0 <= i < j < |orders| ==> orders[i].id != orders[j].id
    ensures WithinLimit(ApplyFills(positions, orders, gateway, sent))
    decreases |orders|
  {
    if orders != [] {
      var o := orders[0];
      var next := Applied(positions, o, gateway(sent));
      FillWithinLimit(positions, o, gateway(sent));
      var rest := orders[1..];
      forall i | 0 <= i < |rest|
        ensures rest[i].id in next && 0 <= rest[i].volume
        ensures Sizing.Admissible(next[rest[i].id], Sign(rest[i].side), rest[i].volume)
      {
        assert rest[i] == orders[i + 1];
      }
      FillsKeepLimit(next, rest, gateway, sent + 1);
    }
  }

  class Exchange {
    var positions: map<Instrument, int>
    var books: map<Instrument, PriceBook>
    /** The answer to the n-th insert request (n counted from 0). */
    const gateway: nat -> Reply
    /** Number of insert requests sent so far. */
    var sent: nat
    /** Every request sent to the gateway, oldest first. */
    var trace: seq<Event>

    constructor (positions: map<Instrument, int>, books: map<Instrument, PriceBook>, gateway: nat -> Reply)
      ensures this.positions == positions && this.books == books && this.gateway == gateway
      ensures sent == 0 && trace == []
    {
      this.positions := positions;
      this.books := books;
      this.gateway := gateway;
      sent := 0;
      trace := [];
    }

    /** insert_order: send one order; the ledger moves by what it fills. */
    method InsertOrder(order: Order) returns (success: bool)
      modifies this
      ensures success == gateway(old(sent)).Accepted?
      ensures positions == Applied(old(positions), order, gateway(old(sent)))
      ensures trace == old(trace) + [Insert(order)] && sent == old(sent) + 1 && books == old(books)
    {
      var reply := gateway(sent);
      success := reply.Accepted?;
      positions := Applied(positions, order, reply);
      trace := trace + [Insert(order)];
      sent := sent + 1;
    }

    /** delete_orders: cancel whatever rests on one instrument; it trades nothing. */
    method DeleteOrders(id: Instrument)
      modifies this
      ensures trace == old(trace) + [Delete(id)]
      ensures positions == old(positions) && books == old(books) && sent == old(sent)
    {
      trace := trace + [Delete(id)];
    }
  }
}
