/**
 * The data the FIFO engine works on: ledger rows of a double-entry export
 * (one row per currency leg of a trade), already cleaned, filtered to the
 * fiscal year and sorted by date, and the disposal records it produces.
 */
module Ledger {

  /** A trade identifier. `Missing` is an empty cell, which is read as NaN and
      therefore equals nothing, not even another empty cell. */
  datatype TradeId = Missing | Known(name: string)

  /** Two legs belong to the same trade when both carry the same identifier. */
  predicate SameTrade(a: TradeId, b: TradeId) {
    a.Known? && b.Known? && a.name == b.name
  }

  /** One ledger row: when it happened (seconds since the epoch), the
      operation label, the signed quantity (negative on the outgoing leg),
      the ticker as written, the signed value in euros and the trade it
      belongs to. */
  datatype Row = Row(time: int, tipo: string, amount: real, cur: string, eur: real, tradeId: TradeId)

  const SecondsPerDay: int := 86400

  /** The calendar day (days since the epoch) of a timestamp: the day whose
      86400 seconds contain it, also before the epoch. */
  function Day(time: int): (day: int)
    ensures day * SecondsPerDay <= time < (day + 1) * SecondsPerDay
  {
    time / SecondsPerDay
  }

  /** The engine's input contract: rows in ascending date order. */
  ghost predicate Chronological(rows: seq<Row>) {
    forall i, j :: 0 <= i < j < |rows| ==> rows[i].time <= rows[j].time
  }

  function UpperChar(c: char): char {
    if 'a' <= c <= 'z' then (c as int - 32) as char else c
  }

  /** The ticker in upper case, as the engine keys its inventory: each
      lower-case ASCII letter becomes its capital, so none is left, and every
      other character is kept. */
  function Upper(s: string): (u: string)
    ensures |u| == |s|
    ensures forall i :: 0 <= i < |u| ==> !('a' <= u[i] <= 'z')
    ensures forall i :: 0 <= i < |s| && 'a' <= s[i] <= 'z' ==> u[i] as int == s[i] as int - 32
    ensures forall i :: 0 <= i < |s| && !('a' <= s[i] <= 'z') ==> u[i] == s[i]
  {
    seq(|s|, i requires 0 <= i < |s| => UpperChar(s[i]))
  }

  /** Upper-casing twice is upper-casing once: a ticker already keyed in
      upper case keys the same queue. */
  lemma UpperIdempotent(s: string)
    ensures Upper(Upper(s)) == Upper(s)
  {
    var u := Upper(s);
    assert forall i :: 0 <= i < |u| ==> Upper(u)[i] == u[i];
  }

  /** The counter-asset class of a disposal: "F" when euros are a leg of the
      trade, "N" otherwise. */
  datatype CounterClass = Fiat | NonFiat {
    function Code(): string {
      if Fiat? then "F" else "N"
    }
  }

  /** One disposal (sale or swap) with its FIFO cost basis: the day, the
      upper-cased asset, the quantity disposed, the gross value received, the
      matched cost, the linked fees, the gain and the counter-asset class. */
  datatype Disposal = Disposal(
    day: int,
    cripto: string,
    qty: real,
    valorTransm: real,
    costeFifo: real,
    gastos: real,
    ganancia: real,
    clave: CounterClass)
}
