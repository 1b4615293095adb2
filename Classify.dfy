/**
 * Row classifiers of the FIFO engine: a ledger row is an acquisition, a
 * disposal or a fee according to how its operation label BEGINS, compared
 * without regard to case (an anchored, case-insensitive regular-expression
 * match on "compra|buy", "venta|sell" and "comisi|fee").
 */
module Classify {

  /** The lower-case ASCII letter a character matches under case-insensitive
      matching, or the character itself when it matches none. Besides A-Z,
      four non-ASCII letters match an ASCII letter when ignoring case:
      dotted capital I and dotless small i match 'i', long s matches 's',
      and the Kelvin sign matches 'k'. */
  function Fold(c: char): char {
    if 'A' <= c <= 'Z' then (c as int + 32) as char
    else if c == '\U{0130}' || c == '\U{0131}' then 'i'
    else if c == '\U{017F}' then 's'
    else if c == '\U{212A}' then 'k'
    else c
  }

  /** True when `text` begins with the lower-case `keyword`, ignoring case. */
  function StartsWith(text: string, keyword: string): bool
    decreases |keyword|
  {
    keyword == [] ||
    (text != [] && Fold(text[0]) == keyword[0] && StartsWith(text[1..], keyword[1..]))
  }

  /** Acquisition: the text begins with "compra" or "buy". */
  predicate IsBuy(text: string) {
    StartsWith(text, "compra") || StartsWith(text, "buy")
  }

  /** Disposal (sale or swap): the text begins with "venta" or "sell". */
  predicate IsSell(text: string) {
    StartsWith(text, "venta") || StartsWith(text, "sell")
  }

  /** Fee leg: the text begins with "comisi" (comisión) or "fee". */
  predicate IsFee(text: string) {
    StartsWith(text, "comisi") || StartsWith(text, "fee")
  }

  /** Two labels that read the same once case is ignored. */
  ghost predicate SameIgnoringCase(a: string, b: string) {
    |a| == |b| && forall i :: 0 <= i < |a| ==> Fold(a[i]) == Fold(b[i])
  }

  /** StartsWith agrees with the declarative reading: the text is at least as
      long as the keyword and its first |keyword| characters fold onto it. */
  lemma {:induction false} StartsWithIff(text: string, keyword: string)
    ensures StartsWith(text, keyword) <==>
      (|keyword| <= |text| && forall i :: 0 <= i < |keyword| ==> Fold(text[i]) == keyword[i])
    decreases |keyword|
  {
    if keyword != [] && text != [] {
      StartsWithIff(text[1..], keyword[1..]);
      if StartsWith(text, keyword) {
        forall i | 0 <= i < |keyword| ensures Fold(text[i]) == keyword[i] {
          if i > 0 { assert text[1..][i - 1] == text[i]; }
        }
      } else if |keyword| <= |text| && Fold(text[0]) == keyword[0] {
        var i :| 0 <= i < |keyword| - 1 && Fold(text[1..][i]) != keyword[1..][i];
        assert Fold(text[i + 1]) != keyword[i + 1];
      }
    }
  }

  /** The match is anchored at the start: a text that begins with the keyword
      still does after anything is appended to it. */
  lemma {:induction false} StartsWithExtends(text: string, more: string, keyword: string)
    requires StartsWith(text, keyword)
    ensures StartsWith(text + more, keyword)
    decreases |keyword|
  {
    if keyword != [] {
      assert (text + more)[1..] == text[1..] + more;
      StartsWithExtends(text[1..], more, keyword[1..]);
    }
  }

  /** Case does not matter: labels equal up to case start with the same keywords. */
  lemma {:induction false} StartsWithIgnoresCase(a: string, b: string, keyword: string)
    requires SameIgnoringCase(a, b)
    ensures StartsWith(a, keyword) == StartsWith(b, keyword)
    decreases |keyword|
  {
    if keyword != [] && a != [] {
      assert Fold(a[0]) == Fold(b[0]);
      assert SameIgnoringCase(a[1..], b[1..]) by {
        forall i | 0 <= i < |a| - 1 ensures Fold(a[1..][i]) == Fold(b[1..][i]) {
          assert a[1..][i] == a[i + 1] && b[1..][i] == b[i + 1];
        }
      }
      StartsWithIgnoresCase(a[1..], b[1..], keyword[1..]);
    }
  }

  /** The three classifiers give the same verdict on labels equal up to case. */
  lemma ClassifiersIgnoreCase(a: string, b: string)
    requires SameIgnoringCase(a, b)
    ensures IsBuy(a) == IsBuy(b) && IsSell(a) == IsSell(b) && IsFee(a) == IsFee(b)
  {
    StartsWithIgnoresCase(a, b, "compra");
    StartsWithIgnoresCase(a, b, "buy");
    StartsWithIgnoresCase(a, b, "venta");
    StartsWithIgnoresCase(a, b, "sell");
    StartsWithIgnoresCase(a, b, "comisi");
    StartsWithIgnoresCase(a, b, "fee");
  }

  /** The text with every character folded as case-insensitive matching
      compares it. */
  function Folded(text: string): string {
    seq(|text|, i requires 0 <= i < |text| => Fold(text[i]))
  }

  /** The prefix test in terms of the folded text: the first |keyword|
      characters of the text, folded, spell the keyword. */
  lemma StartsWithFolded(text: string, keyword: string)
    ensures StartsWith(text, keyword) <==>
      |keyword| <= |text| && Folded(text[..|keyword|]) == keyword
  {
    StartsWithIff(text, keyword);
    if |keyword| <= |text| {
      var f := Folded(text[..|keyword|]);
      assert forall i :: 0 <= i < |keyword| ==> f[i] == Fold(text[i]);
      if f != keyword {
        var i :| 0 <= i < |keyword| && f[i] != keyword[i];
      }
    }
  }

  /** A keyword only counts at the very start of the label: the label is of
      a kind exactly when its first characters, with case ignored, spell one
      of that kind's keywords. So "Trade sell" is not a disposal, and neither
      are "ssell" or "xventa". */
  lemma AnchoredAtStart(text: string)
    ensures IsBuy(text) <==>
      (6 <= |text| && Folded(text[..6]) == "compra") || (3 <= |text| && Folded(text[..3]) == "buy")
    ensures IsSell(text) <==>
      (5 <= |text| && Folded(text[..5]) == "venta") || (4 <= |text| && Folded(text[..4]) == "sell")
    ensures IsFee(text) <==>
      (6 <= |text| && Folded(text[..6]) == "comisi") || (3 <= |text| && Folded(text[..3]) == "fee")
  {
    StartsWithFolded(text, "compra");
    StartsWithFolded(text, "buy");
    StartsWithFolded(text, "venta");
    StartsWithFolded(text, "sell");
    StartsWithFolded(text, "comisi");
    StartsWithFolded(text, "fee");
  }

  /** No text is of two kinds, so the order in which the engine asks
      (acquisition first, then disposal) never hides a fee or a sale. */
  lemma {:induction false} KindsExclusive(text: string)
    ensures !(IsBuy(text) && IsSell(text))
    ensures !(IsBuy(text) && IsFee(text))
    ensures !(IsSell(text) && IsFee(text))
  {
    StartsWithIff(text, "compra");
    StartsWithIff(text, "comisi");
  }

  /** Acquisition labels as they appear in the ledger export. */
  lemma BuyLabels()
    ensures IsBuy("Compra") && IsBuy("BUY")
  {
    assert Fold('C') == 'c' && Fold('B') == 'b' && Fold('U') == 'u' && Fold('Y') == 'y';
  }

  /** Disposal labels as they appear in the ledger export. */
  lemma SellLabels()
    ensures IsSell("Venta") && IsSell("sell")
  {
    assert Fold('V') == 'v';
  }

  /** Fee labels as they appear in the ledger export. */
  lemma FeeLabels()
    ensures IsFee("Comisi\U{00F3}n") && IsFee("Fee")
  {
    assert Fold('C') == 'c' && Fold('F') == 'f';
  }

  /** A keyword later in the label does not make it of that kind. */
  lemma MidLabelExamples()
    ensures !IsSell("Trade sell") && !IsBuy("Sell") && !IsFee("Income")
  {
    assert Fold('T') == 't' && Fold('S') == 's' && Fold('I') == 'i';
  }

  /** Doubling the first letter of a keyword spoils the match. */
  lemma DoubledLetterExamples()
    ensures !IsSell("ssell") && !IsBuy("bbuy") && !IsFee("ffee")
  {
    assert "ssell"[1..] == "sell" && "bbuy"[1..] == "buy" && "ffee"[1..] == "fee";
  }
}
