/**
 * The FIFO matching engine. One pass over the ledger rows in date order:
 * an acquisition appends a lot to its ticker's queue, a disposal drains lots
 * from the front of the queue and yields a disposal record with the matched
 * cost, the fees of its trade, its gain and its counter-asset class; fee and
 * other rows change nothing, and rows of an ignored ticker are skipped.
 *
 * `Step` and `Run` specify the pass as a fold over the rows; the class
 * `Inventory` and the method `FifoCt` carry it out step by step, updating
 * the queues in place, and are proved to agree with the fold.
 */
module Engine {
  import opened Ledger
  import opened Classify
  import opened Linker
  import opened Lots
  import opened Summary

  /** The record of disposal row `r` whose lots matched `cost`: quantity and
      value are the row's, negated; fee and class come from the trade. */
  function Record(all: seq<Row>, r: Row, cost: real): Disposal {
    var valor := -r.eur;
    var fee := FeeFor(all, r.tradeId);
    Disposal(Day(r.time), Upper(r.cur), -r.amount, valor, cost, fee, valor - cost - fee, ClassOf(all, r.tradeId))
  }

  /** The engine's state between rows: the lot queues and the records so far. */
  datatype State = State(inv: Queues, detail: seq<Disposal>)

  /** Processing one row; `all` is every row handed to the engine, which the
      trade linkage scans. Drain only looks the queue up (creating an empty
      entry for a new ticker) when the quantity to match exceeds `Eps`. */
  function Step(all: seq<Row>, ignore: set<string>, st: State, r: Row): State {
    var cur := Upper(r.cur);
    if cur in ignore then st
    else if IsBuy(r.tipo) then
      st.(inv := st.inv[cur := QueueOf(st.inv, cur) + [Lot(r.amount, r.eur)]])
    else if IsSell(r.tipo) then
      var salida := -r.amount;
      var d := Drain(QueueOf(st.inv, cur), salida);
      State(if salida > Eps then st.inv[cur := d.rest] else st.inv, st.detail + [Record(all, r, d.cost)])
    else st
  }

  /** The state after processing `rows` in order, starting empty. */
  function Run(all: seq<Row>, ignore: set<string>, rows: seq<Row>): State
    decreases |rows|
  {
    if rows == [] then State(map[], [])
    else Step(all, ignore, Run(all, ignore, rows[..|rows| - 1]), rows[|rows| - 1])
  }

  /** An acquisition row of a ticker not ignored appends its lot. */
  lemma StepBuy(all: seq<Row>, ignore: set<string>, st: State, r: Row)
    requires Upper(r.cur) !in ignore && IsBuy(r.tipo)
    ensures Step(all, ignore, st, r)
      == st.(inv := st.inv[Upper(r.cur) := QueueOf(st.inv, Upper(r.cur)) + [Lot(r.amount, r.eur)]])
  {
  }

  /** A disposal row of a ticker not ignored drains its queue (only when the
      quantity exceeds `Eps`) and appends its record. */
  lemma StepSell(all: seq<Row>, ignore: set<string>, st: State, r: Row)
    requires Upper(r.cur) !in ignore && IsSell(r.tipo)
    ensures var cur := Upper(r.cur); var d := Drain(QueueOf(st.inv, cur), -r.amount);
      Step(all, ignore, st, r)
      == State(if -r.amount > Eps then st.inv[cur := d.rest] else st.inv, st.detail + [Record(all, r, d.cost)])
  {
    KindsExclusive(r.tipo);
  }

  /** A row of an ignored ticker, or one that is neither an acquisition nor
      a disposal (a fee, a deposit, ...), changes nothing. */
  lemma StepSkips(all: seq<Row>, ignore: set<string>, st: State, r: Row)
    requires Upper(r.cur) in ignore || (!IsBuy(r.tipo) && !IsSell(r.tipo))
    ensures Step(all, ignore, st, r) == st
  {
  }

  /** A row changes only its own ticker's queue: an acquisition appends its
      lot and a disposal leaves what `Drain` leaves (its whole queue when the
      quantity is within `Eps`). */
  lemma StepQueue(all: seq<Row>, ignore: set<string>, st: State, r: Row, c: string)
    ensures QueueOf(Step(all, ignore, st, r).inv, c) ==
      if Upper(r.cur) != c || c in ignore then QueueOf(st.inv, c)
      else if IsBuy(r.tipo) then QueueOf(st.inv, c) + [Lot(r.amount, r.eur)]
      else if IsSell(r.tipo) then Drain(QueueOf(st.inv, c), -r.amount).rest
      else QueueOf(st.inv, c)
  {
    var cur := Upper(r.cur);
    if cur in ignore || (!IsBuy(r.tipo) && !IsSell(r.tipo)) {
      StepSkips(all, ignore, st, r);
    } else if IsBuy(r.tipo) {
      StepBuy(all, ignore, st, r);
    } else {
      StepSell(all, ignore, st, r);
    }
  }

  /** The per-ticker lot queues, updated in place. */
  class Inventory {
    var lots: Queues

    constructor ()
      ensures lots == map[]
    {
      lots := map[];
    }

    /** An acquisition: a lot at the back of the ticker's queue; every other
        queue and the earlier lots of this one are unchanged. */
    method Push(cur: string, qty: real, cost: real)
      modifies this
      ensures lots == old(lots)[cur := QueueOf(old(lots), cur) + [Lot(qty, cost)]]
      ensures QueueOf(lots, cur)[..|QueueOf(old(lots), cur)|] == QueueOf(old(lots), cur)
      ensures forall c :: c != cur ==> QueueOf(lots, c) == QueueOf(old(lots), c)
    {
      lots := lots[cur := QueueOf(lots, cur) + [Lot(qty, cost)]];
    }

    /** A disposal of `need` units: consumes lots from the front of the
        ticker's queue, whole while they fit in what is still needed (within
        `Eps`), else splits the front lot proportionally; returns the cost
        matched and the quantity left unmatched. Only this ticker's queue
        changes, and it becomes what `Drain` leaves. */
    method Consume(cur: string, need: real) returns (cost: real, left: real)
      modifies this
      ensures var d := Drain(QueueOf(old(lots), cur), need);
        cost == d.cost && left == d.left &&
        lots == if need > Eps then old(lots)[cur := d.rest] else old(lots)
    {
      ghost var goal := Drain(QueueOf(lots, cur), need);
      // the ticker's list of lots, worked on in place
      var queue := QueueOf(lots, cur);
      cost, left := 0.0, need;
      while left > Eps && queue != []
        invariant var d := Drain(queue, left);
          cost + d.cost == goal.cost && d.left == goal.left && d.rest == goal.rest
        decreases |queue|, if left > Eps then 1 else 0
      {
        var lot := queue[0];
        if lot.qty <= left + Eps {
          cost := cost + lot.cost;
          left := left - lot.qty;
          queue := queue[1..];
        } else {
          var prop := left / lot.qty;
          cost := cost + lot.cost * prop;
          queue := [Lot(lot.qty - left, lot.cost * (1.0 - prop))] + queue[1..];
          left := 0.0;
        }
      }
      if need > Eps {
        // the look-up in the loop condition has created the ticker's entry
        lots := lots[cur := queue];
      }
    }
  }

  /** A disposal row: the quantity leaving (the amount negated) is matched
      against the lots of its ticker, and the record takes the value received
      (the euro value negated), the cost matched, the fees and the counter
      class of its trade, and the gain. */
  method Dispose(inventory: Inventory, all: seq<Row>, row: Row) returns (record: Disposal)
    modifies inventory
    ensures var d := Drain(QueueOf(old(inventory.lots), Upper(row.cur)), -row.amount);
      record == Record(all, row, d.cost) &&
      inventory.lots == if -row.amount > Eps then old(inventory.lots)[Upper(row.cur) := d.rest] else old(inventory.lots)
  {
    var cur := Upper(row.cur);
    var salida := -row.amount;
    var valorTransm := -row.eur;
    var fee := FeeFor(all, row.tradeId);
    var coste, _ := inventory.Consume(cur, salida);
    var clave := ClassOf(all, row.tradeId);
    record := Disposal(Day(row.time), cur, salida, valorTransm, coste, fee, valorTransm - coste - fee, clave);
  }

  /** The engine: processes the rows in order and returns the disposal
      records and their summary by (asset, counter class). */
  method FifoCt(rows: seq<Row>, ignore: set<string>) returns (detail: seq<Disposal>, summary: seq<SummaryRow>)
    requires Chronological(rows)
    ensures detail == Run(rows, ignore, rows).detail
    ensures summary == Summarize(detail)
  {
    var inventory := new Inventory();
    detail := [];
    var i := 0;
    while i < |rows|
      invariant 0 <= i <= |rows|
      invariant State(inventory.lots, detail) == Run(rows, ignore, rows[..i])
    {
      var row := rows[i];
      ghost var before := State(inventory.lots, detail);
      ghost var after := Step(rows, ignore, before, row);
      var cur := Upper(row.cur);
      if cur !in ignore {
        if IsBuy(row.tipo) {
          inventory.Push(cur, row.amount, row.eur);
          StepBuy(rows, ignore, before, row);
          assert State(inventory.lots, detail) == after;
        } else if IsSell(row.tipo) {
          var record := Dispose(inventory, rows, row);
          detail := detail + [record];
          StepSell(rows, ignore, before, row);
          assert State(inventory.lots, detail) == after;
        } else {
          StepSkips(rows, ignore, before, row);
          assert State(inventory.lots, detail) == after;
        }
      } else {
        StepSkips(rows, ignore, before, row);
        assert State(inventory.lots, detail) == after;
      }
      RunExtends(rows, ignore, rows, i);
      i := i + 1;
    }
    assert rows[..|rows|] == rows;
    summary := Summarize(detail);
  }

  // ---- properties of a whole run ----

  /** Running one more row is one more step. */
  lemma RunExtends(all: seq<Row>, ignore: set<string>, rows: seq<Row>, i: nat)
    requires i < |rows|
    ensures Run(all, ignore, rows[..i + 1]) == Step(all, ignore, Run(all, ignore, rows[..i]), rows[i])
  {
    assert rows[..i + 1][..i] == rows[..i];
  }

  /** The rows the engine turns into disposal records, in order: those of a
      ticker not ignored whose label reads as a sale. */
  function Disposals(ignore: set<string>, rows: seq<Row>): seq<Row>
    decreases |rows|
  {
    if rows == [] then []
    else
      var r := rows[|rows| - 1];
      Disposals(ignore, rows[..|rows| - 1]) + if Upper(r.cur) !in ignore && IsSell(r.tipo) then [r] else []
  }

  /** `d` is the record of disposal row `r`: its day, upper-cased asset, the
      quantity and value negated, the fee and class of its trade, and the
      gain as value minus cost minus fee. */
  ghost predicate Describes(all: seq<Row>, r: Row, d: Disposal) {
    && d.day == Day(r.time)
    && d.cripto == Upper(r.cur)
    && d.qty == -r.amount
    && d.valorTransm == -r.eur
    && d.gastos == FeeFor(all, r.tradeId)
    && d.clave == ClassOf(all, r.tradeId)
    && d.ganancia == d.valorTransm - d.costeFifo - d.gastos
  }

  /** One record per disposal row, in the rows' order, each describing its row. */
  lemma {:induction false} RunRecords(all: seq<Row>, ignore: set<string>, rows: seq<Row>)
    ensures |Run(all, ignore, rows).detail| == |Disposals(ignore, rows)|
    ensures forall k :: 0 <= k < |Disposals(ignore, rows)| ==>
      Describes(all, Disposals(ignore, rows)[k], Run(all, ignore, rows).detail[k])
    decreases |rows|
  {
    if rows != [] {
      var n := |rows| - 1;
      var r := rows[n];
      RunRecords(all, ignore, rows[..n]);
      KindsExclusive(r.tipo);
    }
  }

  /** The positions of the disposal rows among `rows`, in order. */
  function DisposalAt(ignore: set<string>, rows: seq<Row>): seq<nat>
    decreases |rows|
  {
    if rows == [] then []
    else
      var n := |rows| - 1;
      DisposalAt(ignore, rows[..n]) + if Upper(rows[n].cur) !in ignore && IsSell(rows[n].tipo) then [n] else []
  }

  /** The cost `Drain` matches for row `j` against its ticker's queue as the
      rows before it left it. */
  ghost function CostAt(all: seq<Row>, ignore: set<string>, rows: seq<Row>, j: nat): real
    requires j < |rows|
  {
    Drain(QueueOf(Run(all, ignore, rows[..j]).inv, Upper(rows[j].cur)), -rows[j].amount).cost
  }

  /** The cost matched for row `j` depends only on the rows up to `j`. */
  lemma CostAtPrefix(all: seq<Row>, ignore: set<string>, rows: seq<Row>, n: nat, j: nat)
    requires j < n <= |rows|
    ensures rows[..n][j] == rows[j]
    ensures CostAt(all, ignore, rows[..n], j) == CostAt(all, ignore, rows, j)
  {
    assert rows[..n][..j] == rows[..j];
  }

  lemma CostAtLast(all: seq<Row>, ignore: set<string>, rows: seq<Row>)
    requires rows != []
    ensures var n := |rows| - 1;
      CostAt(all, ignore, rows, n) == Drain(QueueOf(Run(all, ignore, rows[..n]).inv, Upper(rows[n].cur)), -rows[n].amount).cost
  {
  }

  /** The k-th record holds the FIFO cost matched for the k-th disposal row
      against the lots that the rows before it left open. */
  lemma {:induction false} RunRecordCosts(all: seq<Row>, ignore: set<string>, rows: seq<Row>)
    ensures |Run(all, ignore, rows).detail| == |DisposalAt(ignore, rows)|
    ensures forall k :: 0 <= k < |DisposalAt(ignore, rows)| ==>
      var j := DisposalAt(ignore, rows)[k];
      j < |rows| && Upper(rows[j].cur) !in ignore && IsSell(rows[j].tipo) &&
      Run(all, ignore, rows).detail[k].costeFifo == CostAt(all, ignore, rows, j)
    decreases |rows|
  {
    if rows != [] {
      var n := |rows| - 1;
      var r := rows[n];
      var st := Run(all, ignore, rows[..n]);
      RunRecordCosts(all, ignore, rows[..n]);
      var prev := DisposalAt(ignore, rows[..n]);
      var disposals := DisposalAt(ignore, rows);
      var detail := Run(all, ignore, rows).detail;
      assert Run(all, ignore, rows) == Step(all, ignore, st, r);
      if Upper(r.cur) !in ignore && IsSell(r.tipo) {
        StepSell(all, ignore, st, r);
        assert disposals == prev + [n];
        var cost := Drain(QueueOf(st.inv, Upper(r.cur)), -r.amount).cost;
        CostAtLast(all, ignore, rows);
        assert detail == st.detail + [Record(all, r, cost)];
      } else {
        if Upper(r.cur) !in ignore && IsBuy(r.tipo) {
          StepBuy(all, ignore, st, r);
        } else {
          StepSkips(all, ignore, st, r);
        }
        assert disposals == prev;
        assert detail == st.detail;
      }
      forall k | 0 <= k < |prev|
        ensures prev[k] < n && rows[prev[k]] == rows[..n][prev[k]]
        ensures CostAt(all, ignore, rows, prev[k]) == CostAt(all, ignore, rows[..n], prev[k])
      {
        CostAtPrefix(all, ignore, rows, n, prev[k]);
      }
    }
  }

  /** The euro cost of the acquisitions of ticker `c` among `rows`. */
  function Acquired(ignore: set<string>, rows: seq<Row>, c: string): real
    decreases |rows|
  {
    if rows == [] then 0.0
    else
      var r := rows[|rows| - 1];
      Acquired(ignore, rows[..|rows| - 1], c) +
        if Upper(r.cur) == c && c !in ignore && IsBuy(r.tipo) then r.eur else 0.0
  }

  /** The FIFO cost matched by the disposal records of asset `c`. */
  function Matched(detail: seq<Disposal>, c: string): real
    decreases |detail|
  {
    if detail == [] then 0.0
    else
      var d := detail[|detail| - 1];
      Matched(detail[..|detail| - 1], c) + if d.cripto == c then d.costeFifo else 0.0
  }

  lemma MatchedAppend(detail: seq<Disposal>, d: Disposal, c: string)
    ensures Matched(detail + [d], c) == Matched(detail, c) + if d.cripto == c then d.costeFifo else 0.0
  {
    assert (detail + [d])[..|detail|] == detail;
  }

  /** Cost conservation over a run: for every asset, the cost matched by its
      disposals plus the cost of its lots still open is the cost of its
      acquisitions (an oversold disposal matches only what was acquired). */
  lemma {:induction false} RunConservesCost(all: seq<Row>, ignore: set<string>, rows: seq<Row>, c: string)
    ensures CostSum(QueueOf(Run(all, ignore, rows).inv, c)) + Matched(Run(all, ignore, rows).detail, c)
      == Acquired(ignore, rows, c)
    decreases |rows|
  {
    if rows != [] {
      var n := |rows| - 1;
      var r := rows[n];
      var st := Run(all, ignore, rows[..n]);
      RunConservesCost(all, ignore, rows[..n], c);
      var cur := Upper(r.cur);
      if cur in ignore || (!IsBuy(r.tipo) && !IsSell(r.tipo)) {
        StepSkips(all, ignore, st, r);
      } else if IsBuy(r.tipo) {
        StepBuy(all, ignore, st, r);
        CostSumAppend(QueueOf(st.inv, cur), [Lot(r.amount, r.eur)]);
      } else {
        StepSell(all, ignore, st, r);
        var d := Drain(QueueOf(st.inv, cur), -r.amount);
        MatchedAppend(st.detail, Record(all, r, d.cost), c);
        DrainConservesCost(QueueOf(st.inv, cur), -r.amount);
      }
    }
  }

  /** Every acquisition of ticker `c` (when not ignored) has a non-negative
      euro cost. */
  ghost predicate NonNegAcquisitions(ignore: set<string>, rows: seq<Row>, c: string)
    decreases |rows|
  {
    rows == [] ||
    (var r := rows[|rows| - 1];
     NonNegAcquisitions(ignore, rows[..|rows| - 1], c) &&
     (Upper(r.cur) == c && c !in ignore && IsBuy(r.tipo) ==> r.eur >= 0.0))
  }

  /** One row keeps the open lots of asset `c` at a non-negative cost, given
      that an acquisition of `c` does not bring a negative one. */
  lemma StepKeepsNonNegLots(all: seq<Row>, ignore: set<string>, st: State, r: Row, c: string)
    requires NonNegCosts(QueueOf(st.inv, c))
    requires Upper(r.cur) == c && c !in ignore && IsBuy(r.tipo) ==> r.eur >= 0.0
    ensures NonNegCosts(QueueOf(Step(all, ignore, st, r).inv, c))
  {
    StepQueue(all, ignore, st, r, c);
    if Upper(r.cur) == c && c !in ignore && IsBuy(r.tipo) {
      NonNegAppend(QueueOf(st.inv, c), Lot(r.amount, r.eur));
    } else if Upper(r.cur) == c && c !in ignore && IsSell(r.tipo) {
      DrainKeepsNonNegCosts(QueueOf(st.inv, c), -r.amount);
    }
  }

  /** When no acquisition of an asset has a negative cost, none of its open
      lots has one. */
  lemma {:induction false} RunKeepsNonNegLots(all: seq<Row>, ignore: set<string>, rows: seq<Row>, c: string)
    requires NonNegAcquisitions(ignore, rows, c)
    ensures NonNegCosts(QueueOf(Run(all, ignore, rows).inv, c))
    decreases |rows|
  {
    if rows != [] {
      var n := |rows| - 1;
      RunKeepsNonNegLots(all, ignore, rows[..n], c);
      StepKeepsNonNegLots(all, ignore, Run(all, ignore, rows[..n]), rows[n], c);
    }
  }

  /** When no acquisition of an asset has a negative cost, the cost matched
      for it never exceeds the cost of its acquisitions. */
  lemma MatchedWithinAcquired(all: seq<Row>, ignore: set<string>, rows: seq<Row>, c: string)
    requires NonNegAcquisitions(ignore, rows, c)
    ensures Matched(Run(all, ignore, rows).detail, c) <= Acquired(ignore, rows, c)
  {
    RunConservesCost(all, ignore, rows, c);
    RunKeepsNonNegLots(all, ignore, rows, c);
    CostSumNonNeg(QueueOf(Run(all, ignore, rows).inv, c));
  }

  /** The rows whose upper-cased ticker is not ignored. */
  function Unignored(ignore: set<string>, rows: seq<Row>): seq<Row>
    decreases |rows|
  {
    if rows == [] then []
    else
      var r := rows[|rows| - 1];
      Unignored(ignore, rows[..|rows| - 1]) + if Upper(r.cur) in ignore then [] else [r]
  }

  /** Rows of an ignored ticker change neither the inventory nor the records:
      the run over the rows without them ends in the same state. */
  lemma {:induction false} RunSkipsIgnored(all: seq<Row>, ignore: set<string>, rows: seq<Row>)
    ensures Run(all, ignore, Unignored(ignore, rows)) == Run(all, ignore, rows)
    decreases |rows|
  {
    if rows != [] {
      var n := |rows| - 1;
      var r := rows[n];
      RunSkipsIgnored(all, ignore, rows[..n]);
      if Upper(r.cur) !in ignore {
        var u := Unignored(ignore, rows[..n]) + [r];
        assert u[..|u| - 1] == Unignored(ignore, rows[..n]);
      } else {
        assert Unignored(ignore, rows) == Unignored(ignore, rows[..n]);
      }
    }
  }

  /** The rows that take part in the matching: of a ticker not ignored, and
      labelled as an acquisition or a disposal. */
  function Matching(ignore: set<string>, rows: seq<Row>): seq<Row>
    decreases |rows|
  {
    if rows == [] then []
    else
      var r := rows[|rows| - 1];
      Matching(ignore, rows[..|rows| - 1]) +
        if Upper(r.cur) !in ignore && (IsBuy(r.tipo) || IsSell(r.tipo)) then [r] else []
  }

  /** Fee legs and every other row that is neither an acquisition nor a
      disposal change neither the inventory nor the records: the run over the
      matching rows alone ends in the same state. */
  lemma {:induction false} RunSkipsOthers(all: seq<Row>, ignore: set<string>, rows: seq<Row>)
    ensures Run(all, ignore, Matching(ignore, rows)) == Run(all, ignore, rows)
    decreases |rows|
  {
    if rows != [] {
      var n := |rows| - 1;
      var r := rows[n];
      RunSkipsOthers(all, ignore, rows[..n]);
      if Upper(r.cur) !in ignore && (IsBuy(r.tipo) || IsSell(r.tipo)) {
        var m := Matching(ignore, rows[..n]) + [r];
        assert m[..|m| - 1] == Matching(ignore, rows[..n]);
      } else {
        assert Matching(ignore, rows) == Matching(ignore, rows[..n]);
        StepSkips(all, ignore, Run(all, ignore, rows[..n]), r);
      }
    }
  }

  /** A ledger with two purchases of BTC (1 for 100 EUR, then 1 for 300 EUR,
      the first with the ticker in lower case), then a sale of 1.5 BTC for
      450 EUR whose trade also has a euro leg and a 5 EUR fee leg, both of
      ticker EUR. */
  function SaleLedger(): seq<Row> { [
    Row(0, "Compra", 1.0, "btc", 100.0, Known("A1")),
    Row(60, "BUY", 1.0, "BTC", 300.0, Known("A2")),
    Row(120, "Venta", -1.5, "BTC", -450.0, Known("T1")),
    Row(120, "Compra", 450.0, "EUR", 450.0, Known("T1")),
    Row(120, "Comisi\U{00F3}n", -5.0, "EUR", -5.0, Known("T1"))]
  }

  lemma SaleLedgerTickers()
    ensures Upper("btc") == "BTC" && Upper("BTC") == "BTC" && Upper("EUR") == "EUR"
  {
    assert UpperChar('b') == 'B' && UpperChar('t') == 'T' && UpperChar('c') == 'C';
  }

  /** The first purchase opens the BTC queue, keyed in upper case. */
  lemma FirstBuyStep(all: seq<Row>)
    ensures Step(all, {"EUR"}, State(map[], []), Row(0, "Compra", 1.0, "btc", 100.0, Known("A1")))
      == State(map["BTC" := [Lot(1.0, 100.0)]], [])
  {
    var r := Row(0, "Compra", 1.0, "btc", 100.0, Known("A1"));
    assert Upper(r.cur) == "BTC" by {
      SaleLedgerTickers();
    }
    assert IsBuy(r.tipo) by {
      BuyLabels();
    }
    StepBuy(all, {"EUR"}, State(map[], []), r);
    assert QueueOf(map[], "BTC") + [Lot(1.0, 100.0)] == [Lot(1.0, 100.0)];
  }

  /** The second purchase goes behind the first. */
  lemma SecondBuyStep(all: seq<Row>)
    ensures Step(all, {"EUR"}, State(map["BTC" := [Lot(1.0, 100.0)]], []), Row(60, "BUY", 1.0, "BTC", 300.0, Known("A2")))
      == State(map["BTC" := [Lot(1.0, 100.0), Lot(1.0, 300.0)]], [])
  {
    var r := Row(60, "BUY", 1.0, "BTC", 300.0, Known("A2"));
    var s1 := State(map["BTC" := [Lot(1.0, 100.0)]], []);
    assert Upper(r.cur) == "BTC" by {
      SaleLedgerTickers();
    }
    assert IsBuy(r.tipo) by {
      BuyLabels();
    }
    StepBuy(all, {"EUR"}, s1, r);
    assert QueueOf(s1.inv, "BTC") + [Lot(1.0, 300.0)] == [Lot(1.0, 100.0), Lot(1.0, 300.0)];
  }

  lemma SaleLedgerSecondBuy()
    ensures Run(SaleLedger(), {"EUR"}, SaleLedger()[..2]) == State(map["BTC" := [Lot(1.0, 100.0), Lot(1.0, 300.0)]], [])
  {
    var rows := SaleLedger();
    FirstBuyStep(rows);
    SecondBuyStep(rows);
    RunExtends(rows, {"EUR"}, rows, 0);
    RunExtends(rows, {"EUR"}, rows, 1);
    assert rows[..0] == [];
  }

  /** The sale row, processed against the two BTC lots, drains the first lot
      whole and half of the second, whatever the rows the linkage scans. */
  lemma SaleStep(all: seq<Row>)
    ensures var r := Row(120, "Venta", -1.5, "BTC", -450.0, Known("T1"));
      Step(all, {"EUR"}, State(map["BTC" := [Lot(1.0, 100.0), Lot(1.0, 300.0)]], []), r)
      == State(map["BTC" := [Lot(0.5, 150.0)]], [Record(all, r, 250.0)])
  {
    var r := Row(120, "Venta", -1.5, "BTC", -450.0, Known("T1"));
    var s2 := State(map["BTC" := [Lot(1.0, 100.0), Lot(1.0, 300.0)]], []);
    assert Upper(r.cur) == "BTC" by {
      SaleLedgerTickers();
    }
    assert IsSell(r.tipo) by {
      SellLabels();
    }
    var d := Drain(QueueOf(s2.inv, Upper(r.cur)), -r.amount);
    assert d == Drained(250.0, 0.0, [Lot(0.5, 150.0)]) by {
      assert QueueOf(s2.inv, "BTC") == [Lot(1.0, 100.0), Lot(1.0, 300.0)];
      SplitAcrossTwoLots();
    }
    StepSell(all, {"EUR"}, s2, r);
    assert s2.inv[Upper(r.cur) := d.rest] == map["BTC" := [Lot(0.5, 150.0)]];
  }

  lemma SaleLedgerSale()
    ensures Run(SaleLedger(), {"EUR"}, SaleLedger()[..3])
      == State(map["BTC" := [Lot(0.5, 150.0)]], [Record(SaleLedger(), SaleLedger()[2], 250.0)])
  {
    var rows := SaleLedger();
    SaleLedgerSecondBuy();
    SaleStep(rows);
    RunExtends(rows, {"EUR"}, rows, 2);
  }

  /** The euro legs of the sale are skipped: EUR is ignored. */
  lemma SaleLedgerEuroLegs()
    ensures Run(SaleLedger(), {"EUR"}, SaleLedger()) == Run(SaleLedger(), {"EUR"}, SaleLedger()[..3])
  {
    var rows := SaleLedger();
    var ignore := {"EUR"};
    assert Upper(rows[3].cur) in ignore && Upper(rows[4].cur) in ignore by {
      SaleLedgerTickers();
    }
    RunExtends(rows, ignore, rows, 3);
    StepSkips(rows, ignore, Run(rows, ignore, rows[..3]), rows[3]);
    RunExtends(rows, ignore, rows, 4);
    StepSkips(rows, ignore, Run(rows, ignore, rows[..4]), rows[4]);
    assert rows[..5] == rows;
  }

  /** The fee of the sale is its 5 EUR fee leg. */
  lemma SaleLedgerFee()
    ensures FeeFor(SaleLedger(), Known("T1")) == 5.0
  {
    var rows := SaleLedger();
    var id := Known("T1");
    assert IsFeeLeg(rows[4], id) by {
      FeeLabels();
    }
    assert !IsFeeLeg(rows[3], id) by {
      BuyLabels();
      KindsExclusive("Compra");
    }
    assert !IsFeeLeg(rows[2], id) by {
      SellLabels();
      KindsExclusive("Venta");
    }
    assert FeeFor(rows[4..], id) == 5.0 by {
      assert rows[4..][1..] == [];
    }
    assert FeeFor(rows[3..], id) == 5.0 by {
      assert rows[3..][1..] == rows[4..];
    }
    assert FeeFor(rows[2..], id) == 5.0 by {
      assert rows[2..][1..] == rows[3..];
    }
    assert FeeFor(rows[1..], id) == 5.0 by {
      assert rows[1..][1..] == rows[2..];
    }
  }

  /** The sale's trade has a euro leg, so its class is "F". */
  lemma SaleLedgerClass()
    ensures ClassOf(SaleLedger(), Known("T1")) == Fiat
  {
    var rows := SaleLedger();
    SaleLedgerTickers();
    ClassOfIff(rows, Known("T1"));
    assert SameTrade(rows[3].tradeId, Known("T1")) && Upper(rows[3].cur) == "EUR";
  }

  /** The sale of the ledger above, with EUR ignored: one record with cost
      100 + 0.5 * 300 = 250, fee 5, gain 450 - 250 - 5 = 195 and class "F",
      and 0.5 BTC left at a cost of 150. */
  lemma SaleAcrossTwoLots()
    ensures Run(SaleLedger(), {"EUR"}, SaleLedger()).detail == [Disposal(0, "BTC", 1.5, 450.0, 250.0, 5.0, 195.0, Fiat)]
    ensures QueueOf(Run(SaleLedger(), {"EUR"}, SaleLedger()).inv, "BTC") == [Lot(0.5, 150.0)]
  {
    SaleLedgerSale();
    SaleLedgerEuroLegs();
    SaleLedgerFee();
    SaleLedgerClass();
    SaleLedgerTickers();
    assert Day(120) == 0;
  }
}
