/**
 * The string operations the view models and the reply parser rely on, restated over `seq<char>`:
 * ASCII lower-casing, substring search, whitespace trimming, integer parsing and printing,
 * and the en_US decimal formatting that groups thousands with commas.
 */
module Text {
  import opened Wrappers

  // ---------------------------------------------------------------------------
  // Case and search
  // ---------------------------------------------------------------------------

  /** `lowercased()` on one character, for the ASCII letters. */
  function LowerChar(c: char): char {
    if 'A' <= c <= 'Z' then (c as int + 32) as char else c
  }

  function Lower(s: string): (r: string)
    ensures |r| == |s|
    ensures forall i :: 0 <= i < |s| ==> r[i] == LowerChar(s[i])
  {
    seq(|s|, i requires 0 <= i < |s| => LowerChar(s[i]))
  }

  lemma LowerIdempotent(s: string)
    ensures Lower(Lower(s)) == Lower(s)
  {
    assert forall i :: 0 <= i < |s| ==> LowerChar(LowerChar(s[i])) == LowerChar(s[i]);
  }

  predicate OccursAt(s: string, sub: string, i: int) {
    0 <= i && i + |sub| <= |s| && s[i..i + |sub|] == sub
  }

  /** `s.contains(sub)`: `sub` occurs somewhere in `s`. */
  predicate Contains(s: string, sub: string) {
    exists i | 0 <= i <= |s| :: OccursAt(s, sub, i)
  }

  lemma Infix(a: string, m: string, b: string)
    ensures OccursAt(a + m + b, m, |a|)
  {
    assert (a + m + b)[|a|..|a| + |m|] == m;
  }

  /** A string that lacks the first character of `sub` does not contain `sub`. */
  lemma MissingFirstChar(s: string, sub: string)
    requires |sub| > 0 && sub[0] !in s
    ensures !Contains(s, sub)
  {
    forall i | 0 <= i <= |s|
      ensures !OccursAt(s, sub, i)
    {
    }
  }

  // ---------------------------------------------------------------------------
  // Ordering
  // ---------------------------------------------------------------------------

  /** `a < b` on strings: lexicographic by character code, a proper prefix coming first. */
  predicate Less(a: string, b: string) {
    if a == [] then b != []
    else if b == [] then false
    else if a[0] != b[0] then a[0] < b[0]
    else Less(a[1..], b[1..])
  }

  lemma {:induction false} LessIrreflexive(a: string)
    ensures !Less(a, a)
  {
    if a != [] {
      LessIrreflexive(a[1..]);
    }
  }

  lemma {:induction false} LessAsymmetric(a: string, b: string)
    ensures !(Less(a, b) && Less(b, a))
  {
    if a != [] && b != [] && a[0] == b[0] {
      LessAsymmetric(a[1..], b[1..]);
    }
  }

  lemma {:induction false} LessTransitive(a: string, b: string, c: string)
    requires Less(a, b) && Less(b, c)
    ensures Less(a, c)
  {
    if a != [] && a[0] == b[0] && b[0] == c[0] {
      LessTransitive(a[1..], b[1..], c[1..]);
    }
  }

  /** Two different strings are ordered one way or the other. */
  lemma {:induction false} LessTotal(a: string, b: string)
    requires a != b
    ensures Less(a, b) || Less(b, a)
  {
    if a != [] && b != [] && a[0] == b[0] {
      assert a == [a[0]] + a[1..] && b == [b[0]] + b[1..];
      LessTotal(a[1..], b[1..]);
    }
  }

  /** "Not less than" is transitive too, which is what a descending sort relies on. */
  lemma NotLessTransitive(a: string, b: string, c: string)
    requires !Less(a, b) && !Less(b, c)
    ensures !Less(a, c)
  {
    if a != b && b != c {
      LessTotal(a, b);
      LessTotal(b, c);
      LessTransitive(c, b, a);
      LessAsymmetric(a, c);
    }
  }

  // ---------------------------------------------------------------------------
  // Whitespace
  // ---------------------------------------------------------------------------

  /** The characters `\s` and `.whitespacesAndNewlines` both match, restricted to ASCII. */
  predicate IsSpace(c: char) {
    c == ' ' || c == '\t' || c == '\n' || c == '\r' || c == '\U{0B}' || c == '\U{0C}'
  }

  /** Neither the first nor the last character is whitespace. */
  predicate Trimmed(s: string) {
    s == [] || (!IsSpace(s[0]) && !IsSpace(s[|s| - 1]))
  }

  function TrimStart(s: string): (r: string)
    ensures |r| <= |s| && r == s[|s| - |r|..]
    ensures r == [] || !IsSpace(r[0])
    ensures forall i :: 0 <= i < |s| - |r| ==> IsSpace(s[i])
  {
    if s != [] && IsSpace(s[0]) then
      var r := TrimStart(s[1..]);
      TrimStartStep(s, r);
      r
    else s
  }

  /** Dropping one leading space: what `s[1..]` trims to is a suffix of `s` after whitespace only. */
  lemma TrimStartStep(s: string, r: string)
    requires s != [] && IsSpace(s[0]) && |r| <= |s| - 1 && r == s[1..][|s| - 1 - |r|..]
    requires forall i :: 0 <= i < |s| - 1 - |r| ==> IsSpace(s[1..][i])
    ensures r == s[|s| - |r|..]
    ensures forall i :: 0 <= i < |s| - |r| ==> IsSpace(s[i])
  {
    assert s[1..][|s| - 1 - |r|..] == s[|s| - |r|..];
    forall i | 0 < i < |s| - |r|
      ensures IsSpace(s[i])
    {
      assert s[i] == s[1..][i - 1];
    }
  }

  function TrimEnd(s: string): (r: string)
    ensures |r| <= |s| && r == s[..|r|]
    ensures r == [] || !IsSpace(r[|r| - 1])
    ensures forall i :: |r| <= i < |s| ==> IsSpace(s[i])
  {
    if s != [] && IsSpace(s[|s| - 1]) then TrimEnd(s[..|s| - 1]) else s
  }

  /** `trimmingCharacters(in: .whitespacesAndNewlines)`. */
  function Trim(s: string): (r: string)
    ensures Trimmed(r)
    ensures Contains(s, r)
    ensures Trimmed(s) ==> r == s
    ensures (forall i :: 0 <= i < |s| ==> IsSpace(s[i])) <==> r == []
    ensures exists a, b :: TrimmedSlice(s, r, a, b)
  {
    TrimEnds(s);
    TrimSlice(s);
    TrimOccurs(s);
    TrimKeepsTrimmed(s);
    TrimAllSpace(s);
    TrimEnd(TrimStart(s))
  }

  lemma TrimEnds(s: string)
    ensures Trimmed(TrimEnd(TrimStart(s)))
  {
    var t := TrimStart(s);
    var r := TrimEnd(t);
    assert r != [] ==> r[0] == t[0];
  }

  lemma TrimOccurs(s: string)
    ensures Contains(s, TrimEnd(TrimStart(s)))
  {
    var t := TrimStart(s);
    SliceOfSuffix(s, t, TrimEnd(t));
    assert OccursAt(s, TrimEnd(t), |s| - |t|);
  }

  /** `r` is the slice `a..b` of `s`, and everything of `s` outside it is whitespace. */
  predicate TrimmedSlice(s: string, r: string, a: int, b: int) {
    0 <= a <= b <= |s| && r == s[a..b] && SpaceOutside(s, a, b)
  }

  /** Everything in `s` before `a` and from `b` on is whitespace. */
  predicate SpaceOutside(s: string, a: nat, b: nat)
    requires a <= b <= |s|
  {
    forall i :: 0 <= i < |s| && (i < a || b <= i) ==> IsSpace(s[i])
  }

  /** Trimming removes exactly a run of whitespace from each end. */
  lemma TrimSlice(s: string)
    ensures exists a, b :: TrimmedSlice(s, TrimEnd(TrimStart(s)), a, b)
  {
    SliceOfSuffix(s, TrimStart(s), TrimEnd(TrimStart(s)));
  }

  /**
   * `r`, a prefix of the suffix `t` of `s`, is the slice of `s` it sits at, and when the rest of
   * `t` and what precedes `t` are whitespace, so is everything of `s` outside that slice.
   */
  lemma SliceOfSuffix(s: string, t: string, r: string)
    requires |t| <= |s| && t == s[|s| - |t|..] && |r| <= |t| && r == t[..|r|]
    requires forall i :: 0 <= i < |s| - |t| ==> IsSpace(s[i])
    requires forall i :: |r| <= i < |t| ==> IsSpace(t[i])
    ensures TrimmedSlice(s, r, |s| - |t|, |s| - |t| + |r|)
  {
    var a := |s| - |t|;
    assert s[a..a + |r|] == s[a..][..|r|];
    forall i | 0 <= i < |s| && (i < a || a + |r| <= i)
      ensures IsSpace(s[i])
    {
      if a + |r| <= i {
        assert s[i] == t[i - a];
      }
    }
  }

  lemma TrimKeepsTrimmed(s: string)
    ensures Trimmed(s) ==> TrimEnd(TrimStart(s)) == s
  {
  }

  lemma TrimAllSpace(s: string)
    ensures (forall i :: 0 <= i < |s| ==> IsSpace(s[i])) <==> TrimEnd(TrimStart(s)) == []
  {
    var t := TrimStart(s);
    var r := TrimEnd(t);
    assert r == [] ==> t == [];
    assert t != [] ==> t[0] == s[|s| - |t|];
  }

  // ---------------------------------------------------------------------------
  // Decimal integers
  // ---------------------------------------------------------------------------

  predicate IsDigit(c: char) { '0' <= c <= '9' }

  predicate AllDigits(s: string) {
    forall i :: 0 <= i < |s| ==> IsDigit(s[i])
  }

  function DigitValue(c: char): nat
    requires IsDigit(c)
  {
    c as int - '0' as int
  }

  function DigitChar(d: nat): (c: char)
    requires d < 10
    ensures IsDigit(c) && DigitValue(c) == d
  {
    ('0' as int + d) as char
  }

  /** The value of a string of decimal digits, most significant first. */
  function DigitsValue(s: string): nat
    requires AllDigits(s)
  {
    if s == [] then 0 else DigitsValue(s[..|s| - 1]) * 10 + DigitValue(s[|s| - 1])
  }

  function Pow10(k: nat): (p: nat)
    ensures p >= 1
  {
    if k == 0 then 1 else 10 * Pow10(k - 1)
  }

  lemma DigitsValueSnoc(s: string, c: char)
    requires AllDigits(s) && IsDigit(c)
    ensures AllDigits(s + [c]) && DigitsValue(s + [c]) == DigitsValue(s) * 10 + DigitValue(c)
  {
    assert (s + [c])[..|s|] == s;
  }

  lemma {:induction false} DigitsValueAppend(a: string, b: string)
    requires AllDigits(a) && AllDigits(b)
    ensures AllDigits(a + b)
    ensures DigitsValue(a + b) == DigitsValue(a) * Pow10(|b|) + DigitsValue(b)
  {
    if b == [] {
      assert a + b == a;
    } else {
      var b', c := b[..|b| - 1], b[|b| - 1];
      assert b == b' + [c];
      assert a + b == (a + b') + [c];
      DigitsValueAppend(a, b');
      DigitsValueSnoc(a + b', c);
      DigitsValueSnoc(b', c);
      assert Pow10(|b|) == 10 * Pow10(|b'|);
      ShiftDigit(DigitsValue(a), DigitsValue(b'), Pow10(|b'|));
    }
  }

  lemma ShiftDigit(x: int, y: int, p: int)
    ensures (x * p + y) * 10 == x * (10 * p) + y * 10
  {
  }

  /** Swift's `"\(n)"` for a non-negative Int: decimal digits without leading zeros. */
  function NatToString(n: nat): (r: string)
    ensures |r| > 0 && AllDigits(r) && DigitsValue(r) == n
    ensures r[0] == '0' ==> n == 0
  {
    if n < 10 then [DigitChar(n)]
    else
      var h := NatToString(n / 10);
      var r := h + [DigitChar(n % 10)];
      assert r[..|r| - 1] == h;
      r
  }

  /** Swift's `"\(i)"` for an Int. */
  function IntToString(i: int): (r: string)
    ensures |r| > 0
    ensures i >= 0 ==> AllDigits(r) && DigitsValue(r) == i
    ensures i < 0 ==> r[0] == '-' && AllDigits(r[1..]) && DigitsValue(r[1..]) == -i
  {
    if i < 0 then "-" + NatToString(-i) else NatToString(i)
  }

  /** An optional sign followed by one or more ASCII digits, read as an unbounded integer. */
  function ParseSignedDigits(s: string): (r: Option<int>)
    ensures r.Some? ==> |s| > 0 && (s[0] != '-' ==> r.value >= 0)
    ensures AllDigits(s) && s != [] ==> r == Some(DigitsValue(s))
    ensures r.Some? ==> |s| > 0 && AllDigits(s[1..]) && (IsDigit(s[0]) || s[0] == '+' || s[0] == '-')
  {
    if |s| > 0 && (s[0] == '+' || s[0] == '-') then
      if |s| > 1 && AllDigits(s[1..]) then
        var v: int := DigitsValue(s[1..]);
        Some(if s[0] == '-' then -v else v)
      else None
    else if |s| > 0 && AllDigits(s) then Some(DigitsValue(s))
    else None
  }

  lemma ParseIntToString(i: int)
    ensures ParseSignedDigits(IntToString(i)) == Some(i)
  {
    var r := IntToString(i);
    if i < 0 {
      assert r[1..] == NatToString(-i);
    }
  }

  const INT64_MIN: int := -0x8000_0000_0000_0000
  const INT64_MAX: int := 0x7FFF_FFFF_FFFF_FFFF

  /** `Int(s)` on a 64-bit platform: `ParseSignedDigits`, failing when the value does not fit. */
  function ParseInt(s: string): (r: Option<int>)
    ensures r.Some? ==> INT64_MIN <= r.value <= INT64_MAX && ParseSignedDigits(s) == r
    ensures ParseSignedDigits(s).Some? && INT64_MIN <= ParseSignedDigits(s).value <= INT64_MAX ==> r.Some?
  {
    match ParseSignedDigits(s)
    case Some(v) => if INT64_MIN <= v <= INT64_MAX then Some(v) else None
    case None => None
  }

  // ---------------------------------------------------------------------------
  // Character replacement and splitting
  // ---------------------------------------------------------------------------

  /** `replacingOccurrences(of: c, with: "")` for a one-character pattern. */
  function RemoveChar(s: string, c: char): (r: string)
    ensures |r| <= |s|
  {
    if s == [] then []
    else RemoveChar(s[..|s| - 1], c) + (if s[|s| - 1] == c then [] else [s[|s| - 1]])
  }

  lemma {:induction false} RemoveCharAppend(a: string, b: string, c: char)
    ensures RemoveChar(a + b, c) == RemoveChar(a, c) + RemoveChar(b, c)
  {
    if b != [] {
      var b' := b[..|b| - 1];
      assert (a + b)[..|a + b| - 1] == a + b';
      RemoveCharAppend(a, b', c);
    } else {
      assert a + b == a;
    }
  }

  lemma {:induction false} RemoveCharAbsent(s: string, c: char)
    requires c !in s
    ensures RemoveChar(s, c) == s
  {
    if s != [] {
      RemoveCharAbsent(s[..|s| - 1], c);
      assert s == s[..|s| - 1] + [s[|s| - 1]];
    }
  }

  /** After the removal `c` no longer occurs, and nothing that was absent has appeared. */
  lemma {:induction false} RemoveCharMembers(s: string, c: char, d: char)
    ensures c !in RemoveChar(s, c)
    ensures d !in s ==> d !in RemoveChar(s, c)
  {
    if s != [] {
      RemoveCharMembers(s[..|s| - 1], c, d);
      assert d !in s ==> d !in s[..|s| - 1];
    }
  }

  /** `replacingOccurrences(of: a, with: b)` for one-character strings. */
  function ReplaceChar(s: string, a: char, b: char): (r: string)
    ensures |r| == |s|
    ensures a != b ==> a !in r
    ensures forall i :: 0 <= i < |s| ==> r[i] == (if s[i] == a then b else s[i])
  {
    seq(|s|, i requires 0 <= i < |s| => if s[i] == a then b else s[i])
  }

  /** `s.components(separatedBy: " ").first`: everything before the first space. */
  function FirstComponent(s: string): (r: string)
    ensures ' ' !in r
    ensures |r| <= |s| && r == s[..|r|]
    ensures |r| < |s| ==> s[|r|] == ' '
  {
    if s == [] || s[0] == ' ' then [] else [s[0]] + FirstComponent(s[1..])
  }

  lemma {:induction false} FirstComponentOfWords(a: string, b: string)
    requires ' ' !in a
    ensures FirstComponent(a + " " + b) == a
  {
    if a != [] {
      assert (a + " " + b)[1..] == a[1..] + " " + b;
      FirstComponentOfWords(a[1..], b);
    }
  }

  // ---------------------------------------------------------------------------
  // NumberFormatter, decimal style, en_US
  // ---------------------------------------------------------------------------

  function Pad3(k: nat): (r: string)
    requires k < 1000
    ensures |r| == 3 && AllDigits(r) && DigitsValue(r) == k
  {
    var hundreds, tens, ones := k / 100, k / 10 % 10, k % 10;
    ThreeDigits(k);
    var a, b, c := DigitChar(hundreds), DigitChar(tens), DigitChar(ones);
    var r := [a, b, c];
    DigitsValueSnoc([], a);
    assert [] + [a] == [a];
    DigitsValueSnoc([a], b);
    assert [a] + [b] == [a, b];
    DigitsValueSnoc([a, b], c);
    assert [a, b] + [c] == r;
    r
  }

  lemma ThreeDigits(k: nat)
    requires k < 1000
    ensures k / 100 < 10 && k / 10 % 10 < 10 && k % 10 < 10
    ensures k == (k / 100 * 10 + k / 10 % 10) * 10 + k % 10
  {
    assert k / 10 == k / 100 * 10 + k / 10 % 10;
    assert k == k / 10 * 10 + k % 10;
  }

  function Grouped(n: nat): string {
    if n < 1000 then NatToString(n) else Grouped(n / 1000) + "," + Pad3(n % 1000)
  }

  /** A whole number as the en_US decimal NumberFormatter prints it: `12,345`, `-1,000`. */
  function FormatDecimal(i: int): string {
    if i < 0 then "-" + Grouped(-i) else Grouped(i)
  }

  lemma {:induction false} GroupedDigits(n: nat)
    ensures var d := RemoveChar(Grouped(n), ',');
      |d| > 0 && AllDigits(d) && DigitsValue(d) == n
  {
    if n < 1000 {
      RemoveCharAbsent(NatToString(n), ',');
    } else {
      var h, p := Grouped(n / 1000), Pad3(n % 1000);
      GroupedDigits(n / 1000);
      var hd := RemoveChar(h, ',');
      GroupedSplit(h, p, hd);
      DigitsValueAppend(hd, p);
      assert Pow10(3) == 1000;
      assert n == n / 1000 * 1000 + n % 1000;
    }
  }

  lemma GroupedSplit(h: string, p: string, hd: string)
    requires hd == RemoveChar(h, ',') && AllDigits(p)
    ensures RemoveChar(h + "," + p, ',') == hd + p
  {
    RemoveCharAppend(h + ",", p, ',');
    RemoveCharAppend(h, ",", ',');
    RemoveCommaSingle();
    var head := RemoveChar(h + ",", ',');
    assert head == hd;
    DigitsHaveNoComma(p);
    RemoveCharAbsent(p, ',');
    assert RemoveChar(h + "," + p, ',') == head + RemoveChar(p, ',');
  }

  lemma RemoveCommaSingle()
    ensures RemoveChar(",", ',') == []
  {
    assert ","[..0] == [];
  }

  lemma DigitsHaveNoComma(p: string)
    requires AllDigits(p)
    ensures ',' !in p
  {
  }

  /** Removing the grouping commas and parsing gives the number back. */
  lemma FormatDecimalRoundTrip(i: int)
    ensures ParseSignedDigits(RemoveChar(FormatDecimal(i), ',')) == Some(i)
  {
    if i < 0 {
      NegativeRoundTrip(-i);
    } else {
      GroupedDigits(i);
    }
  }

  /** The negative half of the round trip: a minus sign before the grouped magnitude. */
  lemma NegativeRoundTrip(n: nat)
    ensures ParseSignedDigits(RemoveChar("-" + Grouped(n), ',')) == Some(0 - n)
  {
    var g := Grouped(n);
    GroupedDigits(n);
    var d := RemoveChar(g, ',');
    RemoveCharNegative(g);
    ParseNegative(d);
  }

  /** The minus sign survives the comma removal. */
  lemma RemoveCharNegative(g: string)
    ensures RemoveChar("-" + g, ',') == "-" + RemoveChar(g, ',')
  {
    RemoveCharAppend("-", g, ',');
    assert RemoveChar("-", ',') == "-" by {
      assert "-"[..0] == [];
    }
  }

  /** A minus sign before digits reads as the negated value. */
  lemma ParseNegative(d: string)
    requires |d| > 0 && AllDigits(d)
    ensures ParseSignedDigits("-" + d) == Some(0 - DigitsValue(d) as int)
  {
    assert ("-" + d)[1..] == d;
  }
}
