/**
 * Open lots of one asset and the FIFO consumption of a disposal against
 * them. `Drain` is the specification of the engine's consume loop: it takes
 * lots from the front of the queue, whole while they fit in the remaining
 * need (within the tolerance `Eps`), and splits the first lot that does not
 * fit proportionally in quantity and cost.
 */
module Lots {

  /** The tolerance of the consume loop's comparisons (1e-12). */
  const Eps: real := 0.000000000001

  /** An unconsumed slice of an acquisition: quantity and euro cost basis. */
  datatype Lot = Lot(qty: real, cost: real)

  /** The inventory: for each upper-cased ticker, its lots oldest first. */
  type Queues = map<string, seq<Lot>>

  /** A ticker's queue; a ticker never seen has an empty one. */
  function QueueOf(inv: Queues, cur: string): seq<Lot> {
    if cur in inv then inv[cur] else []
  }

  function QtySum(q: seq<Lot>): real
    decreases |q|
  {
    if q == [] then 0.0 else q[0].qty + QtySum(q[1..])
  }

  function CostSum(q: seq<Lot>): real
    decreases |q|
  {
    if q == [] then 0.0 else q[0].cost + CostSum(q[1..])
  }

  /** The outcome of a disposal: cost matched, quantity left unmatched
      (the loop's final `salida`) and the queue that remains. */
  datatype Drained = Drained(cost: real, left: real, rest: seq<Lot>)

  /** FIFO consumption of `need` units from queue `q`. */
  function Drain(q: seq<Lot>, need: real): (d: Drained)
    ensures |d.rest| <= |q|
    decreases |q|
  {
    if need <= Eps || q == [] then Drained(0.0, need, q)
    else if q[0].qty <= need + Eps then
      var d := Drain(q[1..], need - q[0].qty);
      Drained(q[0].cost + d.cost, d.left, d.rest)
    else
      var prop := need / q[0].qty;
      Drained(q[0].cost * prop, 0.0, [Lot(q[0].qty - need, q[0].cost * (1.0 - prop))] + q[1..])
  }

  lemma {:induction false} CostSumAppend(a: seq<Lot>, b: seq<Lot>)
    ensures CostSum(a + b) == CostSum(a) + CostSum(b)
    decreases |a|
  {
    if a == [] {
      assert a + b == b;
    } else {
      assert (a + b)[1..] == a[1..] + b;
      CostSumAppend(a[1..], b);
    }
  }

  /** Cost is conserved: the cost matched plus the cost still in the queue is
      the cost the queue held before the disposal. */
  lemma {:induction false} DrainConservesCost(q: seq<Lot>, need: real)
    ensures Drain(q, need).cost + CostSum(Drain(q, need).rest) == CostSum(q)
    decreases |q|
  {
    if need <= Eps || q == [] {
    } else if q[0].qty <= need + Eps {
      DrainConservesCost(q[1..], need - q[0].qty);
    } else {
      var prop := need / q[0].qty;
      var rest := [Lot(q[0].qty - need, q[0].cost * (1.0 - prop))] + q[1..];
      assert rest[1..] == q[1..];
      assert q[0].cost * prop + q[0].cost * (1.0 - prop) == q[0].cost;
    }
  }

  /** Quantity is conserved: the quantity taken from the queue (the need
      minus what is left unmatched) plus the quantity still queued is what
      the queue held before the disposal. */
  lemma {:induction false} DrainConservesQty(q: seq<Lot>, need: real)
    ensures (need - Drain(q, need).left) + QtySum(Drain(q, need).rest) == QtySum(q)
    decreases |q|
  {
    if need <= Eps || q == [] {
    } else if q[0].qty <= need + Eps {
      DrainConservesQty(q[1..], need - q[0].qty);
    } else {
      var rest := [Lot(q[0].qty - need, q[0].cost * (1.0 - need / q[0].qty))] + q[1..];
      assert rest[1..] == q[1..];
    }
  }

  /** The loop stops only when the need is met (within `Eps`) or the queue
      has run out. */
  lemma {:induction false} DrainStops(q: seq<Lot>, need: real)
    ensures Drain(q, need).left <= Eps || Drain(q, need).rest == []
    decreases |q|
  {
    if need > Eps && q != [] && q[0].qty <= need + Eps {
      DrainStops(q[1..], need - q[0].qty);
    }
  }

  /** An oversold disposal: when the queue runs out, every lot was matched
      whole and the quantity still unmatched adds no cost. */
  lemma DrainOversold(q: seq<Lot>, need: real)
    requires Drain(q, need).rest == []
    ensures Drain(q, need).cost == CostSum(q)
    ensures need - Drain(q, need).left == QtySum(q)
  {
    DrainConservesCost(q, need);
    DrainConservesQty(q, need);
  }

  /** `r` is what a split leaves of lot `orig`: positive, smaller, and with
      its cost in proportion to its quantity. */
  ghost predicate Residue(orig: Lot, r: Lot) {
    0.0 < r.qty < orig.qty && r.cost * orig.qty == orig.cost * r.qty
  }

  lemma SplitLeavesResidue(lot: Lot, need: real)
    requires Eps < need && need + Eps < lot.qty
    ensures Residue(lot, Lot(lot.qty - need, lot.cost * (1.0 - need / lot.qty)))
  {
    var prop := need / lot.qty;
    assert prop * lot.qty == need;
    calc {
      lot.cost * (1.0 - prop) * lot.qty;
      lot.cost * (lot.qty - prop * lot.qty);
      lot.cost * (lot.qty - need);
    }
  }

  /** A front lot larger than the need (beyond `Eps`) is split: the need is
      met in full, the matched cost and the residue's cost add up to the
      lot's cost, the residue keeps the quantity not taken and the lots
      behind it are untouched. */
  lemma DrainSplit(q: seq<Lot>, need: real)
    requires Eps < need && q != [] && need + Eps < q[0].qty
    ensures var d := Drain(q, need);
      d.left == 0.0 && |d.rest| == |q| && d.rest[1..] == q[1..] &&
      d.rest[0].qty == q[0].qty - need && d.cost + d.rest[0].cost == q[0].cost &&
      Residue(q[0], d.rest[0])
  {
    var prop := need / q[0].qty;
    assert q[0].cost * prop + q[0].cost * (1.0 - prop) == q[0].cost;
    SplitLeavesResidue(q[0], need);
    var r := Lot(q[0].qty - need, q[0].cost * (1.0 - prop));
    assert ([r] + q[1..])[1..] == q[1..];
  }

  /** FIFO order: what remains of `q` is `q` minus its oldest lots, except
      that the oldest remaining lot may be the residue of a split of the
      original one, in which case nothing is `left` unmatched. */
  ghost predicate TakenFromFront(q: seq<Lot>, left: real, rest: seq<Lot>) {
    |rest| <= |q| &&
    var k := |q| - |rest|;
    rest == q[k..] ||
    (left == 0.0 && k < |q| && rest[1..] == q[k + 1..] && Residue(q[k], rest[0]))
  }

  /** Taking the front lot whole keeps the FIFO shape of what follows. */
  lemma TakenFromFrontShift(q: seq<Lot>, left: real, rest: seq<Lot>)
    requires q != [] && TakenFromFront(q[1..], left, rest)
    ensures TakenFromFront(q, left, rest)
  {
    var k := |q[1..]| - |rest|;
    assert q[1..][k..] == q[k + 1..];
    if k < |q[1..]| {
      assert q[1..][k + 1..] == q[k + 2..] && q[1..][k] == q[k + 1];
    }
  }

  lemma {:induction false} DrainTakesFromFront(q: seq<Lot>, need: real)
    ensures TakenFromFront(q, Drain(q, need).left, Drain(q, need).rest)
    decreases |q|
  {
    if need <= Eps || q == [] {
    } else if q[0].qty <= need + Eps {
      DrainTakesFromFront(q[1..], need - q[0].qty);
      TakenFromFrontShift(q, Drain(q[1..], need - q[0].qty).left, Drain(q[1..], need - q[0].qty).rest);
    } else {
      DrainSplit(q, need);
    }
  }

  /** The cost matched is that of the oldest lots: the `k` lots consumed whole,
      plus the consumed part of the next one when it was split. */
  lemma DrainCostIsOldestLots(q: seq<Lot>, need: real)
    ensures var d := Drain(q, need); var k := |q| - |d.rest|;
      (d.rest == q[k..] && d.cost == CostSum(q[..k])) ||
      (k < |q| && d.cost == CostSum(q[..k]) + (q[k].cost - d.rest[0].cost))
  {
    var d := Drain(q, need);
    var k := |q| - |d.rest|;
    DrainConservesCost(q, need);
    DrainTakesFromFront(q, need);
    assert q == q[..k] + q[k..];
    CostSumAppend(q[..k], q[k..]);
    if d.rest != q[k..] {
      assert q[k..] == [q[k]] + q[k + 1..];
      assert d.rest == [d.rest[0]] + q[k + 1..];
    }
  }

  /** Lots whose costs are not negative. */
  ghost predicate NonNegCosts(q: seq<Lot>) {
    forall i :: 0 <= i < |q| ==> q[i].cost >= 0.0
  }

  /** A new lot of non-negative cost at the back keeps the costs non-negative. */
  lemma NonNegAppend(q: seq<Lot>, lot: Lot)
    requires NonNegCosts(q) && lot.cost >= 0.0
    ensures NonNegCosts(q + [lot])
  {
    forall i | 0 <= i < |q| + 1 ensures (q + [lot])[i].cost >= 0.0 {
      if i < |q| { assert (q + [lot])[i] == q[i]; }
    }
  }

  lemma {:induction false} CostSumNonNeg(q: seq<Lot>)
    requires NonNegCosts(q)
    ensures CostSum(q) >= 0.0
    decreases |q|
  {
    if q != [] {
      assert NonNegCosts(q[1..]) by {
        forall i | 0 <= i < |q| - 1 ensures q[1..][i].cost >= 0.0 {
          assert q[1..][i] == q[i + 1];
        }
      }
      CostSumNonNeg(q[1..]);
    }
  }

  /** A disposal against lots of non-negative cost matches a non-negative
      cost and leaves lots of non-negative cost (a split lot keeps the
      fraction 1 - prop of its cost, with 0 < prop < 1). */
  lemma {:induction false} DrainKeepsNonNegCosts(q: seq<Lot>, need: real)
    requires NonNegCosts(q)
    ensures Drain(q, need).cost >= 0.0 && NonNegCosts(Drain(q, need).rest)
    decreases |q|
  {
    if need <= Eps || q == [] {
    } else if q[0].qty <= need + Eps {
      assert NonNegCosts(q[1..]) by {
        forall i | 0 <= i < |q| - 1 ensures q[1..][i].cost >= 0.0 {
          assert q[1..][i] == q[i + 1];
        }
      }
      DrainKeepsNonNegCosts(q[1..], need - q[0].qty);
    } else {
      var lot := q[0];
      var prop := need / lot.qty;
      assert 0.0 < prop < 1.0 by {
        assert prop * lot.qty == need;
      }
      assert lot.cost * (1.0 - prop) >= 0.0;
      var rest := [Lot(lot.qty - need, lot.cost * (1.0 - prop))] + q[1..];
      forall i | 0 <= i < |rest| ensures rest[i].cost >= 0.0 {
        if i > 0 { assert rest[i] == q[i]; }
      }
    }
  }

  /** With lots (1, 100) then (1, 200), disposing 1 matches 100 and leaves
      the second lot untouched. */
  lemma OldestLotFirst()
    ensures Drain([Lot(1.0, 100.0), Lot(1.0, 200.0)], 1.0) == Drained(100.0, 0.0, [Lot(1.0, 200.0)])
  {
    assert [Lot(1.0, 100.0), Lot(1.0, 200.0)][1..] == [Lot(1.0, 200.0)];
  }

  /** One lot (2, 100); disposing 1 matches 50 and leaves the residue (1, 50). */
  lemma PartialLotSplit()
    ensures Drain([Lot(2.0, 100.0)], 1.0) == Drained(50.0, 0.0, [Lot(1.0, 50.0)])
  {
    assert [Lot(2.0, 100.0)][1..] == [];
  }

  /** A lot of 1.0000000000001 against a need of 1.0 is within the tolerance:
      it is drained whole, leaving no lot with a negative quantity. */
  lemma WithinToleranceDrainsLot(c: real)
    ensures Drain([Lot(1.0000000000001, c)], 1.0) == Drained(c, -0.0000000000001, [])
  {
    assert [Lot(1.0000000000001, c)][1..] == [];
  }

  /** Lots (1, 100) and (1, 300); disposing 1.5 matches 100 + 0.5 * 300 = 250
      and leaves (0.5, 150). */
  lemma SplitAcrossTwoLots()
    ensures Drain([Lot(1.0, 100.0), Lot(1.0, 300.0)], 1.5) == Drained(250.0, 0.0, [Lot(0.5, 150.0)])
  {
    assert [Lot(1.0, 100.0), Lot(1.0, 300.0)][1..] == [Lot(1.0, 300.0)];
    assert [Lot(1.0, 300.0)][1..] == [];
  }
}
