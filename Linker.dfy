/**
 * Trade linkage: the legs of one trade share its identifier. A disposal's
 * fee is the sum of the absolute euro values of the fee legs of its trade,
 * and its counter-asset class is "F" when one leg of the trade is in euros.
 * Both scan every row handed to the engine, including rows the engine itself
 * skips (ignored tickers such as EUR).
 */
module Linker {
  import opened Ledger
  import opened Classify

  function Abs(x: real): real {
    if x < 0.0 then -x else x
  }

  /** A fee leg of trade `id`. */
  predicate IsFeeLeg(r: Row, id: TradeId) {
    SameTrade(r.tradeId, id) && IsFee(r.tipo)
  }

  /** Sum of |eur| over the fee legs of trade `id`. */
  function FeeFor(rows: seq<Row>, id: TradeId): (fee: real)
    ensures fee >= 0.0
    decreases |rows|
  {
    if rows == [] then 0.0
    else (if IsFeeLeg(rows[0], id) then Abs(rows[0].eur) else 0.0) + FeeFor(rows[1..], id)
  }

  /** Some leg of trade `id` is in euros (ticker compared in upper case). */
  function HasEuroLeg(rows: seq<Row>, id: TradeId): bool
    decreases |rows|
  {
    rows != [] && ((SameTrade(rows[0].tradeId, id) && Upper(rows[0].cur) == "EUR") || HasEuroLeg(rows[1..], id))
  }

  function ClassOf(rows: seq<Row>, id: TradeId): CounterClass {
    if HasEuroLeg(rows, id) then Fiat else NonFiat
  }

  /** The fee is zero exactly when every fee leg of the trade has zero value;
      in particular it is zero for a trade with no fee legs. */
  lemma {:induction false} FeeZeroIff(rows: seq<Row>, id: TradeId)
    ensures FeeFor(rows, id) == 0.0 <==>
      forall i :: 0 <= i < |rows| && IsFeeLeg(rows[i], id) ==> rows[i].eur == 0.0
    decreases |rows|
  {
    if rows != [] {
      FeeZeroIff(rows[1..], id);
      assert forall i :: 0 < i < |rows| ==> rows[i] == rows[1..][i - 1];
    }
  }

  /** Fees add up over the parts of the ledger: two fee legs of one trade
      contribute the sum of their values. */
  lemma {:induction false} FeeForAppend(a: seq<Row>, b: seq<Row>, id: TradeId)
    ensures FeeFor(a + b, id) == FeeFor(a, id) + FeeFor(b, id)
    decreases |a|
  {
    if a == [] {
      assert a + b == b;
    } else {
      assert (a + b)[1..] == a[1..] + b;
      FeeForAppend(a[1..], b, id);
    }
  }

  /** A disposal without a trade identifier links to no fee. */
  lemma {:induction false} FeeForMissing(rows: seq<Row>)
    ensures FeeFor(rows, Missing) == 0.0
    decreases |rows|
  {
    if rows != [] {
      FeeForMissing(rows[1..]);
    }
  }

  /** The class is "F" exactly when some row of the trade has ticker EUR. */
  lemma {:induction false} ClassOfIff(rows: seq<Row>, id: TradeId)
    ensures ClassOf(rows, id) == Fiat <==>
      exists i :: 0 <= i < |rows| && SameTrade(rows[i].tradeId, id) && Upper(rows[i].cur) == "EUR"
    decreases |rows|
  {
    if rows != [] {
      ClassOfIff(rows[1..], id);
      assert forall i :: 0 < i < |rows| ==> rows[i] == rows[1..][i - 1];
    }
  }

  /** A disposal whose trade carries no identifier is classed "N". */
  lemma MissingIdIsNonFiat(rows: seq<Row>)
    ensures ClassOf(rows, Missing) == NonFiat
  {
    ClassOfIff(rows, Missing);
  }

  /** Two fee legs on one trade (a 3.0 and a -2.0 euro leg) give a fee of 5.0,
      while a fee leg of another trade and the disposal leg itself add nothing. */
  lemma TwoFeeLegs()
    ensures FeeFor([
      Row(0, "Venta", -1.0, "BTC", -450.0, Known("T1")),
      Row(0, "Comisi\U{00F3}n", -0.1, "BNB", 3.0, Known("T1")),
      Row(0, "Fee", -2.0, "EUR", -2.0, Known("T1")),
      Row(0, "Fee", -9.0, "EUR", 9.0, Known("T2"))], Known("T1")) == 5.0
  {
    var r0 := Row(0, "Venta", -1.0, "BTC", -450.0, Known("T1"));
    var r1 := Row(0, "Comisi\U{00F3}n", -0.1, "BNB", 3.0, Known("T1"));
    var r2 := Row(0, "Fee", -2.0, "EUR", -2.0, Known("T1"));
    var r3 := Row(0, "Fee", -9.0, "EUR", 9.0, Known("T2"));
    var id := Known("T1");
    assert !IsFeeLeg(r0, id) by {
      assert Fold('V') == 'v';
    }
    assert IsFeeLeg(r1, id) && IsFeeLeg(r2, id) by {
      FeeLabels();
    }
    assert !IsFeeLeg(r3, id);
    assert FeeFor([r3], id) == 0.0;
    assert FeeFor([r2, r3], id) == 2.0 by {
      assert [r2, r3][1..] == [r3];
    }
    assert FeeFor([r1, r2, r3], id) == 5.0 by {
      assert [r1, r2, r3][1..] == [r2, r3];
    }
    assert [r0, r1, r2, r3][1..] == [r1, r2, r3];
  }
}
