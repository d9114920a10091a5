/** Sequential human-readable numbers: `INV-<year>-NNNN` for AR invoices,
    `BIL-<year>-NNNN` for AP bills (scoped to a company and calendar year),
    `C-NNNN` for customers and `V-NNNN` for vendors (scoped to a company).

    The services read the lexicographically greatest existing number in scope
    (the database's `orderBy: desc` on the text column), extract its sequence
    part with a regular expression, add one and pad to four digits. */
module Numbering {
  import opened Common
  import opened Text

  /** A numbering scheme: a yearly document sequence or a plain partner code. */
  datatype Scheme = Yearly(kind: string, year: nat) | Plain(letter: string)

  /** The fixed text before the sequence part: `INV-2026-` or `C-`. */
  function Head(sc: Scheme): string {
    match sc
    case Yearly(kind, year) => kind + "-" + NatToString(year) + "-"
    case Plain(letter) => letter + "-"
  }

  /** The number with sequence n: `${head}${String(n).padStart(4, '0')}`. */
  function Format(sc: Scheme, n: nat): string {
    Head(sc) + Pad4(n)
  }

  /** `getFullYear()` of any date after year 999 and before 10000 has four
      digits, which the documents' regular expression expects. */
  predicate WellFormed(sc: Scheme) {
    sc.Yearly? ==> 1000 <= sc.year <= 9999
  }

  /** `s.match(/KIND-\d{4}-(\d+)/)` (documents) or `s.match(/C-(\d+)/)`
      (partners), matched at the start of s, then `parseInt` of the capture. */
  function Suffix(sc: Scheme, s: string): Option<nat> {
    match sc
    case Yearly(kind, _) =>
      var h := |kind| + 1;
      if |s| > h + 5 && s[..h] == kind + "-" && AllDigits(s[h..h + 4])
         && s[h + 4] == '-' && IsDigit(s[h + 5])
      then Some(DigitsValue(DigitRun(s[h + 5..])))
      else None
    case Plain(letter) =>
      var h := |letter| + 1;
      if |s| > h && s[..h] == letter + "-" && IsDigit(s[h])
      then Some(DigitsValue(DigitRun(s[h..])))
      else None
  }

  /** The sequence number the services give the next record, from the numbers
      already in scope: 1 when there are none or the greatest one does not
      match, else the greatest one's sequence part plus one. */
  function NextNumber(sc: Scheme, existing: seq<string>): nat {
    if |existing| == 0 then 1
    else match Suffix(sc, LexMax(existing))
      case Some(n) => n + 1
      case None => 1
  }

  /** A formatted number reads back as its sequence number. */
  lemma SuffixOfFormat(sc: Scheme, n: nat)
    requires WellFormed(sc)
    ensures Suffix(sc, Format(sc, n)) == Some(n)
  {
    var s, p := Format(sc, n), Pad4(n);
    match sc
    case Yearly(kind, year) =>
      var h := |kind| + 1;
      var y := NatToString(year);
      NatToStringLength(year, 4);
      NatToStringLength(year, 3);
      assert Pow10(3) == 1000 && Pow10(4) == 10000;
      assert |y| == 4;
      assert s == (kind + "-") + y + "-" + p;
      assert s[..h] == kind + "-";
      assert s[h..h + 4] == y;
      assert s[h + 5..] == p;
      assert DigitRun(p) == p;
    case Plain(letter) =>
      var h := |letter| + 1;
      assert s[h..] == p;
      assert DigitRun(p) == p;
  }

  /** Different sequence numbers give different formatted numbers. */
  lemma FormatInjective(sc: Scheme, n: nat, m: nat)
    requires WellFormed(sc)
    ensures Format(sc, n) == Format(sc, m) <==> n == m
  {
    SuffixOfFormat(sc, n);
    SuffixOfFormat(sc, m);
  }

  /** While sequence numbers fit in four digits, the order of the formatted
      numbers is the order of the sequence numbers. */
  lemma FormatOrder(sc: Scheme, n: nat, m: nat)
    requires n <= 9999 && m <= 9999
    ensures LexLess(Format(sc, n), Format(sc, m)) <==> n < m
  {
    LexLessCommonPrefix(Head(sc), Pad4(n), Pad4(m));
    DigitsLexIsNumeric(Pad4(n), Pad4(m));
  }

  /** While every number in scope has a sequence part of at most four digits,
      the next number is one more than the greatest sequence in use (1 for an
      empty scope), so it is above every sequence in use. */
  lemma {:induction false} NextNumberIsMaxPlusOne(sc: Scheme, existing: seq<string>, ns: seq<nat>)
    requires WellFormed(sc)
    requires |existing| == |ns|
    requires forall i :: 0 <= i < |ns| ==> ns[i] <= 9999 && existing[i] == Format(sc, ns[i])
    ensures |ns| == 0 ==> NextNumber(sc, existing) == 1
    ensures |ns| > 0 ==> NextNumber(sc, existing) - 1 in ns
    ensures forall i :: 0 <= i < |ns| ==> ns[i] < NextNumber(sc, existing)
  {
    if |ns| > 0 {
      var top := LexMax(existing);
      var j :| 0 <= j < |existing| && existing[j] == top;
      SuffixOfFormat(sc, ns[j]);
      forall i | 0 <= i < |ns| ensures ns[i] <= ns[j] {
        assert existing[i] in existing;
        FormatOrder(sc, ns[i], ns[j]);
        FormatInjective(sc, ns[i], ns[j]);
      }
    }
  }

  /** Under the same condition the next number is not already in use. */
  lemma NextNumberIsFresh(sc: Scheme, existing: seq<string>, ns: seq<nat>)
    requires WellFormed(sc)
    requires |existing| == |ns|
    requires forall i :: 0 <= i < |ns| ==> ns[i] <= 9999 && existing[i] == Format(sc, ns[i])
    ensures Format(sc, NextNumber(sc, existing)) !in existing
  {
    NextNumberIsMaxPlusOne(sc, existing, ns);
    var next := NextNumber(sc, existing);
    forall i | 0 <= i < |ns| ensures existing[i] != Format(sc, next) {
      FormatInjective(sc, ns[i], next);
    }
  }

  /** The numbers k sequential creations in one scope produce, starting from an
      empty scope, if each takes NextNumber: 0001, 0002, ... */
  function Issued(sc: Scheme, k: nat): (s: seq<string>)
    ensures |s| == k
    ensures forall i :: 0 <= i < k ==> s[i] == Format(sc, i + 1)
  {
    if k == 0 then [] else Issued(sc, k - 1) + [Format(sc, k)]
  }

  /** Sequential creation is gapless and strictly increasing: after numbers
      1..k have been issued (k below 10000), the next one is k + 1. */
  lemma SequentialNumbering(sc: Scheme, k: nat)
    requires WellFormed(sc) && k <= 9999
    ensures NextNumber(sc, Issued(sc, k)) == k + 1
  {
    var ns := seq(k, i => i + 1);
    NextNumberIsMaxPlusOne(sc, Issued(sc, k), ns);
    if k > 0 {
      assert ns[k - 1] == k;
    }
  }

  // ---- Finding: the lexicographic maximum stops tracking the numeric one at 10000.

  /** The first character of the 10000th sequence part is '1', that of the
      9999th is '9'. */
  lemma LeadingCharacters()
    ensures Pad4(9999)[0] == '9' && Pad4(10000)[0] == '1'
  {
    assert NatToString(9) == ['9'];
    assert NatToString(99) == NatToString(9) + ['9'];
    assert NatToString(999) == NatToString(99) + ['9'];
    assert NatToString(9999) == NatToString(999) + ['9'];
    assert NatToString(1) == ['1'];
    assert NatToString(10) == NatToString(1) + ['0'];
    assert NatToString(100) == NatToString(10) + ['0'];
    assert NatToString(1000) == NatToString(100) + ['0'];
    assert NatToString(10000) == NatToString(1000) + ['0'];
  }

  /** As written: once numbers 9999 and 10000 both exist in a scope, the
      greatest number in text order is ...-9999, so the next number computed
      is 10000 again, which is already in use. */
  lemma AsWrittenRepeatsTenThousand(sc: Scheme)
    requires WellFormed(sc)
    ensures var existing := [Format(sc, 9999), Format(sc, 10000)];
      NextNumber(sc, existing) == 10000 && Format(sc, NextNumber(sc, existing)) in existing
  {
    var existing := [Format(sc, 9999), Format(sc, 10000)];
    LeadingCharacters();
    LexLessCommonPrefix(Head(sc), Pad4(10000), Pad4(9999));
    assert LexLess(Format(sc, 10000), Format(sc, 9999));
    LexLessAsymmetric(Format(sc, 10000), Format(sc, 9999));
    FormatInjective(sc, 9999, 10000);
    assert LexMax(existing) == Format(sc, 9999);
    SuffixOfFormat(sc, 9999);
  }

  /** The same happens on the way there: after 10000 sequential creations in
      one scope (numbers 1..10000, see SequentialNumbering), the 10001st
      creation is given number 10000 again. */
  lemma AsWrittenRepeatsAfterTenThousandCreations(sc: Scheme, k: nat)
    requires WellFormed(sc) && k == 10000
    ensures NextNumber(sc, Issued(sc, k)) == k
    ensures Format(sc, NextNumber(sc, Issued(sc, k))) in Issued(sc, k)
  {
    GreatestOfTenThousand(sc, k);
    SuffixOfFormat(sc, k - 1);
    assert Issued(sc, k)[k - 1] == Format(sc, k);
  }

  /** Among numbers 1..10000 the greatest in text order is 9999. */
  lemma GreatestOfTenThousand(sc: Scheme, k: nat)
    requires WellFormed(sc) && k == 10000
    ensures LexMax(Issued(sc, k)) == Format(sc, k - 1)
  {
    var existing := Issued(sc, k);
    TenThousandBelowNine(sc, k);
    AllAtMostPenultimate(sc, k);
    assert existing[k - 2] == Format(sc, k - 1);
    LexMaxUnique(existing, Format(sc, k - 1));
  }

  lemma AllAtMostPenultimate(sc: Scheme, k: nat)
    requires 2 <= k <= 10000 && LexLess(Format(sc, k), Format(sc, k - 1))
    ensures forall x :: x in Issued(sc, k) ==> LexLe(x, Format(sc, k - 1))
  {
    var existing := Issued(sc, k);
    var nine := Format(sc, k - 1);
    forall x | x in existing ensures LexLe(x, nine) {
      var i :| 0 <= i < |existing| && existing[i] == x;
      assert x == Format(sc, i + 1);
      if i + 1 < k - 1 {
        FormatOrder(sc, i + 1, k - 1);
      }
    }
  }

  lemma TenThousandBelowNine(sc: Scheme, k: nat)
    requires WellFormed(sc) && k == 10000
    ensures LexLess(Format(sc, k), Format(sc, k - 1))
  {
    LeadingCharacters();
    LexLessCommonPrefix(Head(sc), Pad4(k), Pad4(k - 1));
  }

  /** The greatest sequence number among the numbers in scope that match the
      scheme's pattern (0 when none does). */
  function MaxSuffix(sc: Scheme, existing: seq<string>): (m: nat)
    ensures forall i, n :: 0 <= i < |existing| && Suffix(sc, existing[i]) == Some(n) ==> n <= m
  {
    if |existing| == 0 then 0
    else
      var rest := MaxSuffix(sc, existing[1..]);
      assert forall i :: 1 <= i < |existing| ==> existing[i] == existing[1..][i - 1];
      var here := Suffix(sc, existing[0]).GetOr(0);
      if here > rest then here else rest
  }

  /** Corrected: the next sequence number is one more than the numerically
      greatest sequence in use. */
  function NextNumberNumeric(sc: Scheme, existing: seq<string>): nat {
    MaxSuffix(sc, existing) + 1
  }

  /** The corrected rule never reuses a number, however many are in use. */
  lemma NumericNextIsFresh(sc: Scheme, existing: seq<string>)
    requires WellFormed(sc)
    ensures Format(sc, NextNumberNumeric(sc, existing)) !in existing
  {
    var next := NextNumberNumeric(sc, existing);
    SuffixOfFormat(sc, next);
  }

  /** The corrected rule agrees with the written one while sequence numbers fit
      in four digits. */
  lemma NumericAgreesBelowTenThousand(sc: Scheme, existing: seq<string>, ns: seq<nat>)
    requires WellFormed(sc)
    requires |existing| == |ns|
    requires forall i :: 0 <= i < |ns| ==> ns[i] <= 9999 && existing[i] == Format(sc, ns[i])
    ensures NextNumberNumeric(sc, existing) == NextNumber(sc, existing)
  {
    NextNumberIsMaxPlusOne(sc, existing, ns);
    forall i | 0 <= i < |ns| ensures Suffix(sc, existing[i]) == Some(ns[i]) {
      SuffixOfFormat(sc, ns[i]);
    }
    if |ns| > 0 {
      var j :| 0 <= j < |ns| && ns[j] == NextNumber(sc, existing) - 1;
      MaxSuffixAttained(sc, existing);
    }
  }

  /** MaxSuffix is either 0 or the sequence number of some matching entry. */
  lemma {:induction false} MaxSuffixAttained(sc: Scheme, existing: seq<string>)
    ensures MaxSuffix(sc, existing) == 0
      || exists i :: 0 <= i < |existing| && Suffix(sc, existing[i]) == Some(MaxSuffix(sc, existing))
  {
    if |existing| > 0 {
      MaxSuffixAttained(sc, existing[1..]);
      var rest := MaxSuffix(sc, existing[1..]);
      if rest > 0 && Suffix(sc, existing[0]).GetOr(0) <= rest {
        var i :| 0 <= i < |existing[1..]| && Suffix(sc, existing[1..][i]) == Some(rest);
        assert existing[i + 1] == existing[1..][i];
      }
    }
  }
}
