/**
 * The summary table: disposal records grouped by (asset, counter class),
 * the four euro fields summed within each group, and the groups sorted by
 * asset and then class. The summary is built by inserting the records one
 * at a time into a list kept sorted by key.
 */
module Summary {
  import opened Ledger

  /** The four summed euro fields: value received, FIFO cost, fees, gain. */
  datatype Amounts = Amounts(valorTransm: real, costeFifo: real, gastos: real, ganancia: real)

  const Zero: Amounts := Amounts(0.0, 0.0, 0.0, 0.0)

  function Plus(a: Amounts, b: Amounts): Amounts {
    Amounts(a.valorTransm + b.valorTransm, a.costeFifo + b.costeFifo, a.gastos + b.gastos, a.ganancia + b.ganancia)
  }

  function AmountsOf(d: Disposal): Amounts {
    Amounts(d.valorTransm, d.costeFifo, d.gastos, d.ganancia)
  }

  /** The grouping key. */
  datatype Key = Key(cripto: string, clave: CounterClass)

  function KeyOf(d: Disposal): Key {
    Key(d.cripto, d.clave)
  }

  datatype SummaryRow = SummaryRow(key: Key, totals: Amounts)

  /** Lexicographic order of strings by code point. */
  predicate StrLt(a: string, b: string)
    decreases |a|
  {
    b != [] && (a == [] || a[0] < b[0] || (a[0] == b[0] && StrLt(a[1..], b[1..])))
  }

  /** Classes sort by their codes, so "F" comes before "N". */
  predicate ClassLt(a: CounterClass, b: CounterClass) {
    StrLt(a.Code(), b.Code())
  }

  /** Order of the summary: by asset, then by counter class. */
  predicate KeyLt(a: Key, b: Key) {
    StrLt(a.cripto, b.cripto) || (a.cripto == b.cripto && ClassLt(a.clave, b.clave))
  }

  /** Strictly ascending keys, hence one row per key. */
  ghost predicate Sorted(s: seq<SummaryRow>) {
    forall i, j :: 0 <= i < j < |s| ==> KeyLt(s[i].key, s[j].key)
  }

  ghost function KeySet(s: seq<SummaryRow>): set<Key> {
    set i | 0 <= i < |s| :: s[i].key
  }

  ghost function RecordKeys(detail: seq<Disposal>): set<Key> {
    set i | 0 <= i < |detail| :: KeyOf(detail[i])
  }

  /** The totals of the first row with key `k`, zero when there is none. */
  function Find(s: seq<SummaryRow>, k: Key): Amounts
    decreases |s|
  {
    if s == [] then Zero else if s[0].key == k then s[0].totals else Find(s[1..], k)
  }

  /** The four fields summed over the records of group `k`. */
  function GroupTotals(detail: seq<Disposal>, k: Key): Amounts
    decreases |detail|
  {
    if detail == [] then Zero
    else
      var prev := GroupTotals(detail[..|detail| - 1], k);
      var d := detail[|detail| - 1];
      if KeyOf(d) == k then Plus(prev, AmountsOf(d)) else prev
  }

  /** The four fields summed over all records. */
  function DetailTotals(detail: seq<Disposal>): Amounts
    decreases |detail|
  {
    if detail == [] then Zero
    else Plus(DetailTotals(detail[..|detail| - 1]), AmountsOf(detail[|detail| - 1]))
  }

  /** The four fields summed over all summary rows. */
  function SummaryTotals(s: seq<SummaryRow>): Amounts
    decreases |s|
  {
    if s == [] then Zero else Plus(s[0].totals, SummaryTotals(s[1..]))
  }

  /** Adds one record to a summary sorted by key: into its group's row when
      there is one, otherwise as a new row in key order. */
  function Insert(s: seq<SummaryRow>, d: Disposal): seq<SummaryRow>
    decreases |s|
  {
    if s == [] then [SummaryRow(KeyOf(d), AmountsOf(d))]
    else if s[0].key == KeyOf(d) then [SummaryRow(KeyOf(d), Plus(s[0].totals, AmountsOf(d)))] + s[1..]
    else if KeyLt(KeyOf(d), s[0].key) then [SummaryRow(KeyOf(d), AmountsOf(d))] + s
    else [s[0]] + Insert(s[1..], d)
  }

  /** The summary table of the disposal records. */
  function Summarize(detail: seq<Disposal>): seq<SummaryRow>
    decreases |detail|
  {
    if detail == [] then []
    else Insert(Summarize(detail[..|detail| - 1]), detail[|detail| - 1])
  }

  // ---- the order on keys ----

  lemma {:induction false} StrLtIrreflexive(a: string)
    ensures !StrLt(a, a)
    decreases |a|
  {
    if a != [] {
      StrLtIrreflexive(a[1..]);
    }
  }

  lemma {:induction false} StrLtTransitive(a: string, b: string, c: string)
    requires StrLt(a, b) && StrLt(b, c)
    ensures StrLt(a, c)
    decreases |a|
  {
    if a != [] && a[0] == b[0] && b[0] == c[0] {
      StrLtTransitive(a[1..], b[1..], c[1..]);
    }
  }

  lemma {:induction false} StrLtTotal(a: string, b: string)
    requires a != b
    ensures StrLt(a, b) || StrLt(b, a)
    decreases |a|
  {
    if a != [] && b != [] && a[0] == b[0] {
      assert a == [a[0]] + a[1..] && b == [b[0]] + b[1..];
      StrLtTotal(a[1..], b[1..]);
    }
  }

  /** KeyLt is a strict total order. */
  lemma KeyLtIsStrictTotal(a: Key, b: Key, c: Key)
    ensures !KeyLt(a, a)
    ensures KeyLt(a, b) && KeyLt(b, c) ==> KeyLt(a, c)
    ensures a != b ==> KeyLt(a, b) || KeyLt(b, a)
  {
    StrLtIrreflexive(a.cripto);
    if KeyLt(a, b) && KeyLt(b, c) {
      if StrLt(a.cripto, b.cripto) && StrLt(b.cripto, c.cripto) {
        StrLtTransitive(a.cripto, b.cripto, c.cripto);
      }
    }
    if a != b && a.cripto != b.cripto {
      StrLtTotal(a.cripto, b.cripto);
    }
  }

  // ---- insertion ----

  lemma FindAbsent(s: seq<SummaryRow>, k: Key)
    requires k !in KeySet(s)
    ensures Find(s, k) == Zero
    decreases |s|
  {
    if s != [] {
      assert s[0].key in KeySet(s);
      assert KeySet(s[1..]) <= KeySet(s) by {
        forall j | 0 <= j < |s| - 1 ensures s[1..][j].key in KeySet(s) {
          assert s[1..][j] == s[j + 1];
        }
      }
      FindAbsent(s[1..], k);
    }
  }

  lemma SortedTail(s: seq<SummaryRow>)
    requires Sorted(s) && s != []
    ensures Sorted(s[1..])
    ensures forall j :: 0 <= j < |s| - 1 ==> KeyLt(s[0].key, s[1..][j].key)
    ensures KeySet(s) == {s[0].key} + KeySet(s[1..])
  {
    forall j | 0 <= j < |s| - 1 ensures s[1..][j] == s[j + 1] { }
    assert KeySet(s) == {s[0].key} + KeySet(s[1..]) by {
      forall k | k in KeySet(s) ensures k in {s[0].key} + KeySet(s[1..]) {
        var i :| 0 <= i < |s| && s[i].key == k;
        if i > 0 { assert s[1..][i - 1] == s[i]; }
      }
    }
  }

  lemma KeySetCons(r: SummaryRow, t: seq<SummaryRow>)
    ensures KeySet([r] + t) == {r.key} + KeySet(t)
  {
    var s := [r] + t;
    forall k | k in KeySet(s) ensures k in {r.key} + KeySet(t) {
      var i :| 0 <= i < |s| && s[i].key == k;
      if i > 0 { assert s[i] == t[i - 1]; }
    }
    assert s[0].key in KeySet(s);
    forall k | k in KeySet(t) ensures k in KeySet(s) {
      var i :| 0 <= i < |t| && t[i].key == k;
      assert s[i + 1] == t[i];
    }
  }

  lemma SortedCons(r: SummaryRow, t: seq<SummaryRow>)
    requires Sorted(t)
    requires forall k :: k in KeySet(t) ==> KeyLt(r.key, k)
    ensures Sorted([r] + t)
    ensures KeySet([r] + t) == {r.key} + KeySet(t)
  {
    var s := [r] + t;
    forall j | 0 <= j < |t| ensures s[j + 1] == t[j] && t[j].key in KeySet(t) { }
    forall i, j | 0 <= i < j < |s| ensures KeyLt(s[i].key, s[j].key) {
      if i > 0 { assert s[i] == t[i - 1] && s[j] == t[j - 1]; }
      else { assert s[j] == t[j - 1]; }
    }
    KeySetCons(r, t);
  }


  /** Inserting keeps the summary sorted and adds exactly the record's key. */
  lemma {:induction false} InsertSorted(s: seq<SummaryRow>, d: Disposal)
    requires Sorted(s)
    ensures Sorted(Insert(s, d))
    ensures KeySet(Insert(s, d)) == KeySet(s) + {KeyOf(d)}
    decreases |s|
  {
    var k := KeyOf(d);
    if s == [] {
      assert KeySet([SummaryRow(k, AmountsOf(d))]) == {k} by {
        assert [SummaryRow(k, AmountsOf(d))][0].key == k;
      }
    } else {
      SortedTail(s);
      if s[0].key == k {
        SortedCons(SummaryRow(k, Plus(s[0].totals, AmountsOf(d))), s[1..]);
      } else if KeyLt(k, s[0].key) {
        forall k' | k' in KeySet(s) ensures KeyLt(k, k') {
          if k' != s[0].key {
            var j :| 0 <= j < |s| - 1 && s[1..][j].key == k';
            KeyLtIsStrictTotal(k, s[0].key, k');
          }
        }
        SortedCons(SummaryRow(k, AmountsOf(d)), s);
      } else {
        KeyLtIsStrictTotal(s[0].key, k, k);
        InsertSorted(s[1..], d);
        SortedCons(s[0], Insert(s[1..], d));
      }
    }
  }

  /** Inserting a record adds its amounts to its own group and to no other. */
  lemma {:induction false} InsertFind(s: seq<SummaryRow>, d: Disposal, k: Key)
    requires Sorted(s)
    ensures Find(Insert(s, d), k) == if k == KeyOf(d) then Plus(Find(s, k), AmountsOf(d)) else Find(s, k)
    decreases |s|
  {
    var kd := KeyOf(d);
    if s == [] {
    } else if s[0].key == kd {
      assert ([SummaryRow(kd, Plus(s[0].totals, AmountsOf(d)))] + s[1..])[1..] == s[1..];
    } else if KeyLt(kd, s[0].key) {
      var r := [SummaryRow(kd, AmountsOf(d))] + s;
      assert r[1..] == s;
      if k == kd {
        SortedTail(s);
        assert kd !in KeySet(s) by {
          forall k' | k' in KeySet(s) ensures k' != kd {
            if k' != s[0].key {
              KeyLtIsStrictTotal(kd, s[0].key, k');
            }
            KeyLtIsStrictTotal(kd, kd, kd);
          }
        }
        FindAbsent(s, kd);
      }
    } else {
      SortedTail(s);
      InsertFind(s[1..], d, k);
      assert ([s[0]] + Insert(s[1..], d))[1..] == Insert(s[1..], d);
    }
  }

  /** Inserting a record adds its amounts to the grand totals. */
  lemma {:induction false} InsertTotals(s: seq<SummaryRow>, d: Disposal)
    ensures SummaryTotals(Insert(s, d)) == Plus(SummaryTotals(s), AmountsOf(d))
    decreases |s|
  {
    var kd := KeyOf(d);
    if s == [] {
    } else if s[0].key == kd {
      assert ([SummaryRow(kd, Plus(s[0].totals, AmountsOf(d)))] + s[1..])[1..] == s[1..];
    } else if KeyLt(kd, s[0].key) {
      assert ([SummaryRow(kd, AmountsOf(d))] + s)[1..] == s;
    } else {
      InsertTotals(s[1..], d);
      assert ([s[0]] + Insert(s[1..], d))[1..] == Insert(s[1..], d);
    }
  }

  lemma FindAt(s: seq<SummaryRow>, i: nat)
    requires Sorted(s) && i < |s|
    ensures Find(s, s[i].key) == s[i].totals
    decreases i
  {
    if i > 0 {
      SortedTail(s);
      KeyLtIsStrictTotal(s[0].key, s[i].key, s[i].key);
      assert s[1..][i - 1] == s[i];
      FindAt(s[1..], i - 1);
    }
  }

  // ---- the summary table ----

  /** The summary is sorted by (asset, class), so it holds one row per group,
      and its groups are exactly those of the records. */
  lemma {:induction false} SummarizeSorted(detail: seq<Disposal>)
    ensures Sorted(Summarize(detail))
    ensures KeySet(Summarize(detail)) == RecordKeys(detail)
    decreases |detail|
  {
    if detail != [] {
      var n := |detail| - 1;
      SummarizeSorted(detail[..n]);
      InsertSorted(Summarize(detail[..n]), detail[n]);
      assert RecordKeys(detail) == RecordKeys(detail[..n]) + {KeyOf(detail[n])} by {
        forall k | k in RecordKeys(detail) ensures k in RecordKeys(detail[..n]) + {KeyOf(detail[n])} {
          var i :| 0 <= i < |detail| && KeyOf(detail[i]) == k;
          if i < n { assert detail[..n][i] == detail[i]; }
        }
        forall k | k in RecordKeys(detail[..n]) ensures k in RecordKeys(detail) {
          var i :| 0 <= i < n && KeyOf(detail[..n][i]) == k;
          assert detail[..n][i] == detail[i];
        }
      }
    }
  }

  /** Looked up by any key, the summary gives that group's sums. */
  lemma {:induction false} SummarizeFind(detail: seq<Disposal>, k: Key)
    ensures Find(Summarize(detail), k) == GroupTotals(detail, k)
    decreases |detail|
  {
    if detail != [] {
      var n := |detail| - 1;
      SummarizeFind(detail[..n], k);
      SummarizeSorted(detail[..n]);
      InsertFind(Summarize(detail[..n]), detail[n], k);
    }
  }

  /** Each summary row holds the sums of the four fields over the records of
      its group. */
  lemma SummaryRowsAreGroupSums(detail: seq<Disposal>)
    ensures forall i :: 0 <= i < |Summarize(detail)| ==>
      Summarize(detail)[i].totals == GroupTotals(detail, Summarize(detail)[i].key)
  {
    var s := Summarize(detail);
    SummarizeSorted(detail);
    forall i | 0 <= i < |s| ensures s[i].totals == GroupTotals(detail, s[i].key) {
      FindAt(s, i);
      SummarizeFind(detail, s[i].key);
    }
  }

  /** Summing the summary rows gives the totals of all records, so the total
      gain of the summary equals the total gain of the records. */
  lemma {:induction false} SummaryKeepsTotals(detail: seq<Disposal>)
    ensures SummaryTotals(Summarize(detail)) == DetailTotals(detail)
    decreases |detail|
  {
    if detail != [] {
      var n := |detail| - 1;
      SummaryKeepsTotals(detail[..n]);
      InsertTotals(Summarize(detail[..n]), detail[n]);
    }
  }
}
