/** String operations the services rely on: decimal digits and `parseInt`,
    `String(n).padStart(4, '0')`, byte-wise lexicographic order (the order in
    which the database sorts text columns), `split`/`trim`/`join`, ASCII case
    folding and substring search. */
module Text {

  predicate IsDigit(c: char) {
    '0' <= c <= '9'
  }

  predicate AllDigits(s: string) {
    forall i :: 0 <= i < |s| ==> IsDigit(s[i])
  }

  function DigitValue(c: char): (d: nat)
    requires IsDigit(c)
    ensures d < 10
  {
    c as int - '0' as int
  }

  function DigitChar(d: nat): (c: char)
    requires d < 10
    ensures IsDigit(c) && DigitValue(c) == d
  {
    (('0' as int) + d) as char
  }

  function Pow10(k: nat): (p: nat)
    ensures p >= 1
  {
    if k == 0 then 1 else 10 * Pow10(k - 1)
  }

  /** The value `parseInt(s, 10)` gives for a non-empty string of decimal digits. */
  function DigitsValue(s: string): nat
    requires AllDigits(s)
  {
    if |s| == 0 then 0 else DigitValue(s[0]) * Pow10(|s| - 1) + DigitsValue(s[1..])
  }

  /** A string of k digits denotes a number below 10^k. */
  lemma {:induction false} DigitsValueBound(s: string)
    requires AllDigits(s)
    ensures DigitsValue(s) < Pow10(|s|)
  {
    if |s| > 0 {
      DigitsValueBound(s[1..]);
      var d, p := DigitValue(s[0]), Pow10(|s| - 1);
      assert d * p + DigitsValue(s[1..]) < d * p + p == (d + 1) * p;
      assert (d + 1) * p <= 10 * p by { assert d + 1 <= 10; }
    }
  }

  /** Reading one more digit multiplies the value read so far by ten (Horner). */
  lemma {:induction false} DigitsValueAppend(s: string, c: char)
    requires AllDigits(s) && IsDigit(c)
    ensures AllDigits(s + [c])
    ensures DigitsValue(s + [c]) == 10 * DigitsValue(s) + DigitValue(c)
  {
    var t := s + [c];
    assert AllDigits(t);
    if |s| > 0 {
      assert t[1..] == s[1..] + [c];
      DigitsValueAppend(s[1..], c);
      var d, p := DigitValue(s[0]), Pow10(|s| - 1);
      var rest := DigitsValue(s[1..]);
      assert t[0] == s[0];
      assert DigitsValue(s) == d * p + rest;
      assert Pow10(|s|) == 10 * p;
      assert DigitsValue(t) == d * (10 * p) + (10 * rest + DigitValue(c));
      assert d * (10 * p) == 10 * (d * p);
    } else {
      assert t == [c] && t[1..] == [];
    }
  }

  /** Leading zeros do not change the value of a digit string. */
  lemma {:induction false} LeadingZerosValue(k: nat, s: string)
    requires AllDigits(s)
    ensures AllDigits(Repeat('0', k) + s)
    ensures DigitsValue(Repeat('0', k) + s) == DigitsValue(s)
  {
    if k > 0 {
      var t := Repeat('0', k) + s;
      assert t[0] == '0' && t[1..] == Repeat('0', k - 1) + s;
      LeadingZerosValue(k - 1, s);
      assert DigitValue(t[0]) == 0;
      assert DigitsValue(t) == 0 * Pow10(|t| - 1) + DigitsValue(t[1..]);
    } else {
      assert Repeat('0', k) + s == s;
    }
  }

  /** The longest prefix of s made of digits: what `(\d+)` captures. */
  function DigitRun(s: string): (r: string)
    ensures |r| <= |s| && r == s[..|r|] && AllDigits(r)
    ensures |r| < |s| ==> !IsDigit(s[|r|])
  {
    if |s| > 0 && IsDigit(s[0]) then [s[0]] + DigitRun(s[1..]) else []
  }

  /** `String(n)`: the decimal representation of n, without leading zeros. */
  function NatToString(n: nat): (s: string)
    ensures |s| >= 1 && AllDigits(s)
    ensures DigitsValue(s) == n
    ensures |s| > 1 ==> s[0] != '0'
  {
    if n < 10 then
      [DigitChar(n)]
    else
      var front := NatToString(n / 10);
      DigitsValueAppend(front, DigitChar(n % 10));
      front + [DigitChar(n % 10)]
  }

  /** `String(n)` has at most k digits exactly when n < 10^k. */
  lemma {:induction false} NatToStringLength(n: nat, k: nat)
    requires k >= 1
    ensures |NatToString(n)| <= k <==> n < Pow10(k)
  {
    if n >= 10 {
      if k == 1 {
        assert |NatToString(n)| == |NatToString(n / 10)| + 1;
      } else {
        NatToStringLength(n / 10, k - 1);
        assert |NatToString(n)| == |NatToString(n / 10)| + 1;
        assert n / 10 < Pow10(k - 1) <==> n < 10 * Pow10(k - 1);
      }
    } else {
      assert Pow10(k) >= 10 by { assert Pow10(k) == 10 * Pow10(k - 1); }
    }
  }

  function Repeat(c: char, k: nat): (r: string)
    ensures |r| == k && forall i :: 0 <= i < k ==> r[i] == c
  {
    if k == 0 then [] else [c] + Repeat(c, k - 1)
  }

  /** `s.padStart(width, fill)` for a one-character fill. */
  function PadStart(s: string, width: nat, fill: char): string {
    if |s| >= width then s else Repeat(fill, width - |s|) + s
  }

  /** `String(n).padStart(4, '0')`: the sequence part of document numbers and
      partner codes. It always reads back as n, and it is four characters long
      exactly while n fits in four digits. */
  function Pad4(n: nat): (s: string)
    ensures AllDigits(s) && DigitsValue(s) == n
    ensures |s| >= 4
    ensures |s| == 4 <==> n <= 9999
  {
    var digits := NatToString(n);
    NatToStringLength(n, 4);
    assert Pow10(4) == 10000;
    if |digits| < 4 then LeadingZerosValue(4 - |digits|, digits); PadStart(digits, 4, '0')
    else PadStart(digits, 4, '0')
  }

  /** Strict byte-wise lexicographic order: a proper prefix comes first. */
  predicate LexLess(a: string, b: string)
    decreases |a|
  {
    |b| > 0 && (|a| == 0 || a[0] < b[0] || (a[0] == b[0] && LexLess(a[1..], b[1..])))
  }

  predicate LexLe(a: string, b: string) {
    a == b || LexLess(a, b)
  }

  lemma {:induction false} LexLessIrreflexive(a: string)
    ensures !LexLess(a, a)
  {
    if |a| > 0 {
      LexLessIrreflexive(a[1..]);
    }
  }

  lemma {:induction false} LexLessTransitive(a: string, b: string, c: string)
    requires LexLess(a, b) && LexLess(b, c)
    ensures LexLess(a, c)
  {
    if |a| > 0 && a[0] == b[0] && b[0] == c[0] {
      LexLessTransitive(a[1..], b[1..], c[1..]);
    }
  }

  /** Any two distinct strings are ordered one way or the other. */
  lemma {:induction false} LexTrichotomy(a: string, b: string)
    ensures a == b || LexLess(a, b) || LexLess(b, a)
  {
    if |a| > 0 && |b| > 0 && a[0] == b[0] {
      LexTrichotomy(a[1..], b[1..]);
      if a[1..] == b[1..] {
        assert a == [a[0]] + a[1..] && b == [b[0]] + b[1..];
      }
    }
  }

  lemma LexLessAsymmetric(a: string, b: string)
    requires LexLess(a, b)
    ensures !LexLess(b, a)
  {
    if LexLess(b, a) {
      LexLessTransitive(a, b, a);
      LexLessIrreflexive(a);
    }
  }

  /** A common prefix does not affect the comparison. */
  lemma {:induction false} LexLessCommonPrefix(p: string, a: string, b: string)
    ensures LexLess(p + a, p + b) <==> LexLess(a, b)
  {
    if |p| > 0 {
      assert (p + a)[0] == (p + b)[0] == p[0];
      assert (p + a)[1..] == p[1..] + a && (p + b)[1..] == p[1..] + b;
      LexLessCommonPrefix(p[1..], a, b);
    } else {
      assert p + a == a && p + b == b;
    }
  }

  /** For digit strings of equal length, lexicographic order is numeric order. */
  lemma {:induction false} DigitsLexIsNumeric(a: string, b: string)
    requires AllDigits(a) && AllDigits(b) && |a| == |b|
    ensures LexLess(a, b) <==> DigitsValue(a) < DigitsValue(b)
  {
    if |a| > 0 {
      var p := Pow10(|a| - 1);
      var da, db := DigitValue(a[0]), DigitValue(b[0]);
      var ra, rb := DigitsValue(a[1..]), DigitsValue(b[1..]);
      assert DigitsValue(a) == da * p + ra;
      assert DigitsValue(b) == db * p + rb;
      DigitsValueBound(a[1..]);
      DigitsValueBound(b[1..]);
      if a[0] == b[0] {
        DigitsLexIsNumeric(a[1..], b[1..]);
      } else if a[0] < b[0] {
        LeadingDigitDecides(da, db, ra, rb, p);
      } else {
        LeadingDigitDecides(db, da, rb, ra, p);
      }
    }
  }

  /** A smaller leading digit makes a smaller number, whatever follows it. */
  lemma LeadingDigitDecides(da: nat, db: nat, ra: nat, rb: nat, p: nat)
    requires da < db && ra < p
    ensures da * p + ra < db * p + rb
  {
    assert (da + 1) * p == da * p + p;
    MultiplyMonotone(da + 1, db, p);
  }

  lemma MultiplyMonotone(x: nat, y: nat, p: nat)
    requires x <= y
    ensures x * p <= y * p
  {
  }

  /** The lexicographically greatest string of a non-empty list: what
      `findFirst` returns under `orderBy: desc` on a text column. */
  function LexMax(s: seq<string>): (m: string)
    requires |s| > 0
    ensures m in s
    ensures forall x :: x in s ==> LexLe(x, m)
  {
    if |s| == 1 then
      s[0]
    else
      var rest := LexMax(s[1..]);
      LexTrichotomy(rest, s[0]);
      if LexLess(rest, s[0]) then
        assert forall x :: x in s[1..] ==> LexLe(x, s[0]) by {
          forall x | x in s[1..] && x != rest ensures LexLess(x, s[0]) {
            LexLessTransitive(x, rest, s[0]);
          }
        }
        s[0]
      else
        rest
  }

  /** The text-order maximum is the one element that every element is at most. */
  lemma LexMaxUnique(s: seq<string>, t: string)
    requires t in s
    requires forall x :: x in s ==> LexLe(x, t)
    ensures LexMax(s) == t
  {
    var m := LexMax(s);
    assert LexLe(m, t) && LexLe(t, m);
    if m != t {
      LexLessAsymmetric(m, t);
    }
  }

  predicate StartsWith(s: string, prefix: string) {
    |prefix| <= |s| && s[..|prefix|] == prefix
  }

  /** `s.includes(sub)`, and Prisma's `contains` filter. */
  predicate Contains(s: string, sub: string) {
    exists i :: 0 <= i <= |s| - |sub| && OccursAt(s, sub, i)
  }

  predicate OccursAt(s: string, sub: string, i: int) {
    0 <= i <= |s| - |sub| && s[i..i + |sub|] == sub
  }

  function LowerChar(c: char): char {
    if 'A' <= c <= 'Z' then (c as int + 32) as char else c
  }

  /** Lower-casing of ASCII letters, the case folding the model gives to
      Prisma's `mode: 'insensitive'`. */
  function Lower(s: string): (r: string)
    ensures |r| == |s| && forall i :: 0 <= i < |s| ==> r[i] == LowerChar(s[i])
  {
    if |s| == 0 then [] else [LowerChar(s[0])] + Lower(s[1..])
  }

  predicate ContainsInsensitive(s: string, sub: string) {
    Contains(Lower(s), Lower(sub))
  }

  /** The characters JavaScript's `trim` removes (WhiteSpace and LineTerminator). */
  predicate IsSpace(c: char) {
    var k := c as int;
    k == 0x09 || k == 0x0A || k == 0x0B || k == 0x0C || k == 0x0D || k == 0x20
    || k == 0xA0 || k == 0x1680 || (0x2000 <= k <= 0x200A) || k == 0x2028
    || k == 0x2029 || k == 0x202F || k == 0x205F || k == 0x3000 || k == 0xFEFF
  }

  function TrimStart(s: string): (r: string)
    ensures |r| <= |s| && r == s[|s| - |r|..]
    ensures |r| > 0 ==> !IsSpace(r[0])
    ensures forall i :: 0 <= i < |s| - |r| ==> IsSpace(s[i])
  {
    if |s| > 0 && IsSpace(s[0]) then TrimStart(s[1..]) else s
  }

  function TrimEnd(s: string): (r: string)
    ensures |r| <= |s| && r == s[..|r|]
    ensures |r| > 0 ==> !IsSpace(r[|r| - 1])
    ensures forall i :: |r| <= i < |s| ==> IsSpace(s[i])
  {
    if |s| > 0 && IsSpace(s[|s| - 1]) then TrimEnd(s[..|s| - 1]) else s
  }

  /** `s.trim()`: s is the result with white space added on either side. */
  function Trim(s: string): (r: string)
    ensures |r| > 0 ==> !IsSpace(r[0]) && !IsSpace(r[|r| - 1])
    ensures exists i :: PaddedAt(s, r, i)
  {
    var t := TrimStart(s);
    var r := TrimEnd(t);
    var i := |s| - |t|;
    assert PaddedAt(s, r, i);
    r
  }

  /** s is r with only white space before position i and after r. */
  predicate PaddedAt(s: string, r: string, i: int) {
    && 0 <= i <= |s| - |r| && r == s[i..i + |r|]
    && (forall k :: 0 <= k < i ==> IsSpace(s[k]))
    && (forall k :: i + |r| <= k < |s| ==> IsSpace(s[k]))
  }

  /** `s.split(sep)` for a one-character separator: "" splits into [""], and
      every separator yields a (possibly empty) piece on each side. */
  function Split(s: string, sep: char): (parts: seq<string>)
    ensures |parts| >= 1
    ensures forall k :: 0 <= k < |parts| ==> sep !in parts[k]
    decreases |s|
  {
    if |s| == 0 then
      [""]
    else
      var rest := Split(s[1..], sep);
      if s[0] == sep then [""] + rest else [[s[0]] + rest[0]] + rest[1..]
  }

  /** `parts.join(sep)`. */
  function Join(parts: seq<string>, sep: string): string {
    if |parts| == 0 then ""
    else if |parts| == 1 then parts[0]
    else parts[0] + sep + Join(parts[1..], sep)
  }

  /** Splitting and joining back with the same separator gives the input. */
  lemma {:induction false} JoinSplit(s: string, sep: char)
    ensures Join(Split(s, sep), [sep]) == s
    decreases |s|
  {
    if |s| > 0 {
      var rest := Split(s[1..], sep);
      JoinSplit(s[1..], sep);
      if s[0] == sep {
        assert Split(s, sep)[1..] == rest;
        assert s == [sep] + s[1..];
      } else {
        var parts := Split(s, sep);
        assert parts[0] == [s[0]] + rest[0] && parts[1..] == rest[1..];
        if |rest| == 1 {
          assert s == [s[0]] + rest[0];
        } else {
          assert Join(rest, [sep]) == rest[0] + [sep] + Join(rest[1..], [sep]);
          assert s == [s[0]] + s[1..];
        }
      }
    }
  }

  lemma {:induction false} SplitSingle(a: string, sep: char)
    requires sep !in a
    ensures Split(a, sep) == [a]
    decreases |a|
  {
    if |a| > 0 {
      assert a[0] in a;
      assert forall k :: 0 <= k < |a[1..]| ==> a[1..][k] == a[k + 1];
      SplitSingle(a[1..], sep);
      assert a == [a[0]] + a[1..];
    }
  }

  lemma {:induction false} SplitPrefix(a: string, b: string, sep: char)
    requires sep !in a
    ensures Split(a + [sep] + b, sep) == [a] + Split(b, sep)
    decreases |a|
  {
    var s := a + [sep] + b;
    if |a| == 0 {
      assert s[0] == sep && s[1..] == b;
    } else {
      assert a[0] in a;
      assert forall k :: 0 <= k < |a[1..]| ==> a[1..][k] == a[k + 1];
      assert s[0] == a[0] && s[1..] == a[1..] + [sep] + b;
      SplitPrefix(a[1..], b, sep);
      assert a == [a[0]] + a[1..];
    }
  }

  /** Joining pieces that contain no separator and splitting again gives the
      pieces back. */
  lemma {:induction false} SplitJoin(parts: seq<string>, sep: char)
    requires |parts| > 0
    requires forall p :: p in parts ==> sep !in p
    ensures Split(Join(parts, [sep]), sep) == parts
    decreases |parts|
  {
    assert parts[0] in parts;
    if |parts| == 1 {
      SplitSingle(parts[0], sep);
    } else {
      assert forall p :: p in parts[1..] ==> p in parts;
      SplitJoin(parts[1..], sep);
      SplitPrefix(parts[0], Join(parts[1..], [sep]), sep);
      assert parts == [parts[0]] + parts[1..];
    }
  }
}
