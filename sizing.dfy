/** Volume sizing: the raw size heuristic and the per-instrument position cap,
    and the way a branch chains them into the volume it trades. */
module Sizing {
  import opened Market

  predicate UnitSign(tradeInt: int)
  {
    tradeInt == 1 || tradeInt == -1
  }

  /** Trading `volume` lots in direction `tradeInt` from position `pos` stays within the limit. */
  predicate Admissible(pos: int, tradeInt: int, volume: int)
  {
    Abs(pos + tradeInt * volume) <= PositionLimit
  }

  /** find_vol: the constituent volume implied by the basket price and the
      cheaper constituent price (price magnitudes used as a volume bound).
      `etf / 2` is floor division, as in the source. */
  function FindVol(etf: int, instA: int): (r: int)
    ensures r == Min(instA, etf / 2)
    ensures 0 <= etf && 0 <= instA ==> 0 <= r
  {
    if etf >= instA * 2 then instA else etf / 2
  }

  /** max_total_orders: `volume` if trading it in direction `tradeInt` keeps
      the position of `id` within the limit, otherwise the room left before the
      limit, `500 - |pos|`, which is not clamped at zero. */
  function MaxTotalOrders(positions: map<Instrument, int>, id: Instrument, volume: int, tradeInt: int): (r: int)
    requires id in positions
    ensures Abs(positions[id]) <= PositionLimit && 0 <= volume && UnitSign(tradeInt) ==>
              0 <= r <= volume && Admissible(positions[id], tradeInt, r)
    ensures Admissible(positions[id], tradeInt, volume) ==> r == volume
    ensures Abs(positions[id]) > PositionLimit && !Admissible(positions[id], tradeInt, volume) ==> r < 0
  {
    var pos := positions[id];
    if Abs(tradeInt * volume + pos) > PositionLimit then PositionLimit - Abs(pos) else volume
  }

  /** A position of 480 buying 50 lots would reach 530: the cap returns the 20 lots of room left. */
  lemma MaxTotalOrdersExample()
    ensures MaxTotalOrders(map["X" := 480], "X", 50, 1) == 20
    ensures MaxTotalOrders(map["X" := 480], "X", 50, -1) == 50
    ensures MaxTotalOrders(map["X" := 520], "X", 10, -1) == -20
  {
  }

  /** Trading fewer lots in the same direction than an admissible volume is admissible. */
  lemma AdmissibleBelow(pos: int, tradeInt: int, volume: int, fewer: int)
    requires Abs(pos) <= PositionLimit && UnitSign(tradeInt)
    requires Admissible(pos, tradeInt, volume) && 0 <= fewer <= volume
    ensures Admissible(pos, tradeInt, fewer)
  {
    if tradeInt == 1 {
      assert pos + tradeInt * fewer == pos + fewer;
      assert pos + tradeInt * volume == pos + volume;
    } else {
      assert pos + tradeInt * fewer == pos - fewer;
      assert pos + tradeInt * volume == pos - volume;
    }
  }

  /** The running volume after `for id in ids: vol = max_total_orders(id, vol, tradeInt)`. */
  function ChainCaps(positions: map<Instrument, int>, ids: seq<Instrument>, volume: int, tradeInt: int): (r: int)
    requires forall i :: 0 <= i < |ids| ==> ids[i] in positions
    ensures Bounded(positions, ids) && 0 <= volume && UnitSign(tradeInt) ==>
              0 <= r <= volume && forall i :: 0 <= i < |ids| ==> Admissible(positions[ids[i]], tradeInt, r)
    decreases |ids|
  {
    if ids == [] then volume
    else
      var before := ChainCaps(positions, ids[..|ids| - 1], volume, tradeInt);
      var r := MaxTotalOrders(positions, ids[|ids| - 1], before, tradeInt);
      if Bounded(positions, ids) && 0 <= volume && UnitSign(tradeInt) then
        assert forall i :: 0 <= i < |ids| - 1 ==> ids[i] == ids[..|ids| - 1][i];
        assert forall i :: 0 <= i < |ids| - 1 ==> Admissible(positions[ids[i]], tradeInt, r) by {
          forall i | 0 <= i < |ids| - 1 ensures Admissible(positions[ids[i]], tradeInt, r) {
            assert ids[i] == ids[..|ids| - 1][i];
            AdmissibleBelow(positions[ids[i]], tradeInt, before, r);
          }
        }
        r
      else r
  }

  /** The volume a branch trades: the constituent caps chained in turn, then
      the basket capped on twice that volume in the opposite direction and the
      result halved (floor). */
  function FinalVolume(positions: map<Instrument, int>, basket: Instrument, stocks: seq<Instrument>,
                       raw: int, stockSign: int): (r: int)
    requires basket in positions
    requires forall i :: 0 <= i < |stocks| ==> stocks[i] in positions
    ensures Bounded(positions, stocks) && Abs(positions[basket]) <= PositionLimit && 0 <= raw && UnitSign(stockSign) ==>
              0 <= r <= ChainCaps(positions, stocks, raw, stockSign) <= raw
  {
    MaxTotalOrders(positions, basket, 2 * ChainCaps(positions, stocks, raw, stockSign), -stockSign) / 2
  }

  /** From positions within the limit, the final volume is between zero and the
      raw volume, and trading it (twice it on the basket) keeps every
      instrument within the limit. */
  lemma FinalVolumeWithinLimit(positions: map<Instrument, int>, basket: Instrument, stocks: seq<Instrument>,
                               raw: int, stockSign: int)
    requires Bounded(positions, stocks)
    requires basket in positions && Abs(positions[basket]) <= PositionLimit
    requires 0 <= raw && UnitSign(stockSign)
    ensures var vol := FinalVolume(positions, basket, stocks, raw, stockSign);
            && 0 <= vol <= raw
            && (forall i :: 0 <= i < |stocks| ==> Admissible(positions[stocks[i]], stockSign, vol))
            && Admissible(positions[basket], -stockSign, 2 * vol)
  {
    var chained := ChainCaps(positions, stocks, raw, stockSign);
    var capped := MaxTotalOrders(positions, basket, 2 * chained, -stockSign);
    var vol := capped / 2;
    assert 0 <= 2 * vol <= capped;
    AdmissibleBelow(positions[basket], -stockSign, capped, 2 * vol);
    forall i | 0 <= i < |stocks| ensures Admissible(positions[stocks[i]], stockSign, vol) {
      AdmissibleBelow(positions[stocks[i]], stockSign, chained, vol);
    }
  }

  /** When no cap binds, the chained caps return the volume they were given. */
  lemma {:induction false} ChainCapsUnbound(positions: map<Instrument, int>, ids: seq<Instrument>,
                                           volume: int, tradeInt: int)
    requires forall i :: 0 <= i < |ids| ==> ids[i] in positions
    requires forall i :: 0 <= i < |ids| ==> Admissible(positions[ids[i]], tradeInt, volume)
    ensures ChainCaps(positions, ids, volume, tradeInt) == volume
    decreases |ids|
  {
    if ids != [] {
      var front := ids[..|ids| - 1];
      assert forall i :: 0 <= i < |front| ==> front[i] == ids[i];
      ChainCapsUnbound(positions, front, volume, tradeInt);
    }
  }

  /** If no cap binds, the final volume equals the raw volume. */
  lemma NoBindingCapKeepsRaw(positions: map<Instrument, int>, basket: Instrument, stocks: seq<Instrument>,
                             raw: int, stockSign: int)
    requires basket in positions
    requires forall i :: 0 <= i < |stocks| ==> stocks[i] in positions
    requires forall i :: 0 <= i < |stocks| ==> Admissible(positions[stocks[i]], stockSign, raw)
    requires Admissible(positions[basket], -stockSign, 2 * raw)
    ensures FinalVolume(positions, basket, stocks, raw, stockSign) == raw
  {
    ChainCapsUnbound(positions, stocks, raw, stockSign);
  }

  /** The limit result needs a non-negative raw volume: from a negative one
      (possible only with negative quotes) the basket cap can return positive
      room, and the constituent whose cap did not bind is pushed past the limit. */
  lemma NegativeRawCanBreachLimit()
    ensures var positions := map["A" := 0, "B" := 500, "E" := 0];
            && FinalVolume(positions, "E", ["A", "B"], -300, 1) == 250
            && Abs(positions["B"] + 250) > PositionLimit
  {
    var positions := map["A" := 0, "B" := 500, "E" := 0];
    assert ["A", "B"][..1] == ["A"];
    assert ["A"][..0] == [];
    assert ChainCaps(positions, ["A"], -300, 1) == -300;
    assert ChainCaps(positions, ["A", "B"], -300, 1) == -300;
  }
}
