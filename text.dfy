/** The Python string operations the renderings rely on: `str(int)`,
    `c * n`, `str.rstrip(chars)`, `str.replace(old, new, 1)` and the text an
    `enumerate(xs, 1)` loop accumulates, together with readers that recover
    the numbers from rendered text. */
module Text {
  import opened Wrappers

  /** `c * n` for a one-character string `c`. */
  function Repeat(c: char, n: nat): (r: string)
    ensures |r| == n
    ensures forall i :: 0 <= i < n ==> r[i] == c
  {
    seq(n, _ => c)
  }

  /** Regrouping a concatenation; called where a proof needs it, so that the
      solver need not compare the two sides character by character. */
  lemma Assoc(a: string, b: string, c: string)
    ensures a + b + c == a + (b + c)
  {
  }

  /** Moves the split point of a concatenation of six parts. */
  lemma Regroup(a: string, b: string, c: string, d: string, e: string, f: string)
    ensures a + (b + (c + (d + e) + f)) == a + b + c + d + (e + f)
  {
    Assoc(c + d, e, f);
    Assoc(c, d, e);
    Assoc(a, b, c + d + (e + f));
    Assoc(a + b, c + d, e + f);
    Assoc(a + b, c, d);
  }

  // ---------------------------------------------------------------------
  // Decimal numbers

  predicate IsDigit(c: char) {
    '0' <= c <= '9'
  }

  predicate AllDigits(s: string) {
    forall i :: 0 <= i < |s| ==> IsDigit(s[i])
  }

  function DigitChar(d: nat): (c: char)
    requires d < 10
    ensures IsDigit(c)
  {
    ('0' as int + d) as char
  }

  function DigitValue(c: char): (d: nat)
    requires IsDigit(c)
    ensures d < 10 && DigitChar(d) == c
  {
    c as int - '0' as int
  }

  /** `str(n)` for a natural number: its decimal digits, without leading zeros. */
  function NatToString(n: nat): (r: string)
    ensures |r| >= 1 && AllDigits(r)
    ensures r[0] == '0' ==> n == 0
  {
    if n < 10 then [DigitChar(n)] else NatToString(n / 10) + [DigitChar(n % 10)]
  }

  /** `str(n)` for any integer: a minus sign before the digits of a negative number. */
  function IntToString(n: int): (r: string)
    ensures |r| >= 1
    ensures r[0] == '-' <==> n < 0
    ensures AllDigits(if n < 0 then r[1..] else r)
  {
    if n < 0 then "-" + NatToString(-n) else NatToString(n)
  }

  /** The value of a string of decimal digits. */
  function DigitsValue(s: string): nat
    requires AllDigits(s)
  {
    if s == [] then 0 else DigitsValue(s[..|s| - 1]) * 10 + DigitValue(s[|s| - 1])
  }

  lemma {:induction false} DigitsValueOfNatToString(n: nat)
    ensures DigitsValue(NatToString(n)) == n
  {
    if n >= 10 {
      var s := NatToString(n);
      assert s[..|s| - 1] == NatToString(n / 10);
      DigitsValueOfNatToString(n / 10);
    }
  }

  /** Length of the longest prefix of `s` that is made of digits. */
  function DigitRun(s: string): (k: nat)
    ensures k <= |s| && AllDigits(s[..k])
    ensures k < |s| ==> !IsDigit(s[k])
  {
    if s == [] || !IsDigit(s[0]) then 0
    else
      var k := 1 + DigitRun(s[1..]);
      assert forall i :: 1 <= i < k ==> s[..k][i] == s[1..][..k - 1][i - 1];
      k
  }

  /** A number's text is over where the following text does not start with a digit. */
  predicate EndsNumber(t: string) {
    t == [] || !IsDigit(t[0])
  }

  /** Reads the natural number at the front of `s`; gives it with the text after it. */
  function ReadNat(s: string): Option<(nat, string)> {
    var k := DigitRun(s);
    if k == 0 then None else Some((DigitsValue(s[..k]), s[k..]))
  }

  /** Reads the integer (an optional minus sign, then digits) at the front of `s`. */
  function ReadInt(s: string): Option<(int, string)> {
    if s != [] && s[0] == '-' then
      match ReadNat(s[1..])
      case None => None
      case Some((n, rest)) => Some((-(n as int), rest))
    else
      ReadNat(s)
  }

  lemma {:induction false} DigitRunOfDigits(d: string, t: string)
    requires AllDigits(d) && EndsNumber(t)
    ensures DigitRun(d + t) == |d|
  {
    if d != [] {
      assert (d + t)[1..] == d[1..] + t;
      DigitRunOfDigits(d[1..], t);
    }
  }

  lemma ReadNatOfNatToString(n: nat, t: string)
    requires EndsNumber(t)
    ensures ReadNat(NatToString(n) + t) == Some((n, t))
  {
    var d := NatToString(n);
    DigitRunOfDigits(d, t);
    assert (d + t)[..|d|] == d;
    assert (d + t)[|d|..] == t;
    DigitsValueOfNatToString(n);
  }

  lemma ReadIntOfNegative(n: int, t: string)
    requires n < 0 && EndsNumber(t)
    ensures ReadInt(IntToString(n) + t) == Some((n, t))
  {
    var m: nat := -n;
    var d := NatToString(m);
    assert IntToString(n) == "-" + d;
    Assoc("-", d, t);
    var s := "-" + (d + t);
    assert s[1..] == d + t;
    ReadNatOfNatToString(m, t);
    assert ReadInt(s) == Some((-(m as int), t));
  }

  lemma ReadIntOfNonNegative(n: nat, t: string)
    requires EndsNumber(t)
    ensures ReadInt(IntToString(n) + t) == Some((n, t))
  {
    var d := NatToString(n);
    assert IsDigit(d[0]);
    assert (d + t)[0] == d[0];
    ReadNatOfNatToString(n, t);
  }

  /** `str` and `ReadInt` are inverse: the rendered number is read back exactly. */
  lemma ReadIntOfIntToString(n: int, t: string)
    requires EndsNumber(t)
    ensures ReadInt(IntToString(n) + t) == Some((n, t))
  {
    if n < 0 {
      ReadIntOfNegative(n, t);
    } else {
      ReadIntOfNonNegative(n, t);
    }
  }

  /** Strips the literal `lit` from the front of `s`. */
  function Expect(lit: string, s: string): (r: Option<string>)
    ensures r.Some? <==> lit <= s
    ensures r.Some? ==> s == lit + r.value
  {
    if lit <= s then Some(s[|lit|..]) else None
  }

  lemma ExpectOfLiteral(lit: string, t: string)
    ensures Expect(lit, lit + t) == Some(t)
  {
    assert (lit + t)[..|lit|] == lit;
    assert (lit + t)[|lit|..] == t;
  }

  /** Reads `caption` followed by an integer. */
  function ReadField(caption: string, text: string): Option<(int, string)> {
    match Expect(caption, text)
    case None => None
    case Some(rest) => ReadInt(rest)
  }

  lemma ReadFieldOfIntToString(caption: string, n: int, t: string)
    requires EndsNumber(t)
    ensures ReadField(caption, caption + IntToString(n) + t) == Some((n, t))
  {
    var digits := IntToString(n);
    Assoc(caption, digits, t);
    ExpectOfLiteral(caption, digits + t);
    ReadIntOfIntToString(n, t);
  }

  // ---------------------------------------------------------------------
  // str.rstrip

  /** The characters of `s`, as the argument of `rstrip` is read. */
  function CharsOf(s: string): set<char> {
    set i | 0 <= i < |s| :: s[i]
  }

  /** `s.rstrip(chars)`: the argument of `rstrip` is a SET of characters, so the
      longest suffix made only of those characters is removed. */
  function Rstrip(s: string, chars: set<char>): (r: string)
    ensures r <= s
    ensures r == [] || r[|r| - 1] !in chars
    ensures forall i :: |r| <= i < |s| ==> s[i] in chars
  {
    if s != [] && s[|s| - 1] in chars then Rstrip(s[..|s| - 1], chars) else s
  }

  /** Stripping stops at the last character outside `chars`: text before it is kept. */
  lemma {:induction false} RstripAfterStop(x: string, y: string, chars: set<char>)
    requires x != [] && x[|x| - 1] !in chars
    ensures Rstrip(x + y, chars) == x + Rstrip(y, chars)
  {
    if y == [] {
      assert x + y == x;
    } else if y[|y| - 1] in chars {
      assert (x + y)[..|x + y| - 1] == x + y[..|y| - 1];
      RstripAfterStop(x, y[..|y| - 1], chars);
    } else {
      assert (x + y)[|x + y| - 1] == y[|y| - 1];
    }
  }

  /** A suffix made only of stripped characters makes no difference. */
  lemma {:induction false} RstripDropsStrippable(y: string, t: string, chars: set<char>)
    requires forall i :: 0 <= i < |t| ==> t[i] in chars
    ensures Rstrip(y + t, chars) == Rstrip(y, chars)
  {
    if t == [] {
      assert y + t == y;
    } else {
      assert (y + t)[..|y + t| - 1] == y + t[..|t| - 1];
      RstripDropsStrippable(y, t[..|t| - 1], chars);
    }
  }

  // ---------------------------------------------------------------------
  // str.find and str.replace(old, new, 1)

  predicate OccursAt(s: string, pat: string, k: nat) {
    k + |pat| <= |s| && s[k..k + |pat|] == pat
  }

  /** `s.find(pat)`: the first position where `pat` occurs, if any. */
  function Find(s: string, pat: string): (r: Option<nat>)
    ensures r.Some? ==> OccursAt(s, pat, r.value)
    ensures r.Some? ==> forall j :: 0 <= j < r.value ==> !OccursAt(s, pat, j)
    ensures r.None? ==> forall j :: 0 <= j <= |s| ==> !OccursAt(s, pat, j)
  {
    if OccursAt(s, pat, 0) then Some(0)
    else if s == [] then None
    else
      var r := Find(s[1..], pat);
      assert forall j :: 1 <= j <= |s| ==> (OccursAt(s, pat, j) <==> OccursAt(s[1..], pat, j - 1)) by {
        forall j | 1 <= j <= |s|
          ensures OccursAt(s, pat, j) <==> OccursAt(s[1..], pat, j - 1)
        {
          if j + |pat| <= |s| {
            var here, there := s[j..j + |pat|], s[1..][j - 1..j - 1 + |pat|];
            assert forall m :: 0 <= m < |here| ==> here[m] == there[m];
            assert here == there;
          }
        }
      }
      match r
      case None => None
      case Some(k) => Some(k + 1)
  }

  /** `s.replace(pat, rep, 1)`: only the first occurrence is replaced. */
  function ReplaceFirst(s: string, pat: string, rep: string): string {
    match Find(s, pat)
    case None => s
    case Some(k) => s[..k] + rep + s[k + |pat|..]
  }

  lemma ReplaceFirstAt(s: string, pat: string, rep: string, k: nat)
    requires OccursAt(s, pat, k)
    requires forall j :: 0 <= j < k ==> !OccursAt(s, pat, j)
    ensures ReplaceFirst(s, pat, rep) == s[..k] + rep + s[k + |pat|..]
  {
    var r := Find(s, pat);
    assert r.Some?;
    assert r.value == k;
  }

  // ---------------------------------------------------------------------
  // for i, x in enumerate(xs, first): text += entry(i, x)

  /** The text an enumerate loop accumulates, numbering the items from `first`. */
  function Numbered<T>(xs: seq<T>, first: int, entry: (int, T) -> string): string
    decreases |xs|
  {
    if xs == [] then "" else entry(first, xs[0]) + Numbered(xs[1..], first + 1, entry)
  }

  /** One more loop iteration appends the next item's entry, numbered after the others. */
  lemma {:induction false} NumberedSnoc<T>(xs: seq<T>, x: T, first: int, entry: (int, T) -> string)
    ensures Numbered(xs + [x], first, entry) == Numbered(xs, first, entry) + entry(first + |xs|, x)
    decreases |xs|
  {
    if xs == [] {
      assert ([] + [x])[1..] == [];
    } else {
      assert (xs + [x])[1..] == xs[1..] + [x];
      NumberedSnoc(xs[1..], x, first + 1, entry);
    }
  }

  /** The enumerate loop itself: appends each item's entry in turn. */
  method JoinNumbered<T>(xs: seq<T>, first: int, entry: (int, T) -> string) returns (text: string)
    ensures text == Numbered(xs, first, entry)
  {
    text := "";
    var i := 0;
    while i < |xs|
      invariant 0 <= i <= |xs|
      invariant text == Numbered(xs[..i], first, entry)
    {
      assert xs[..i + 1] == xs[..i] + [xs[i]];
      NumberedSnoc(xs[..i], xs[i], first, entry);
      text := text + entry(first + i, xs[i]);
      i := i + 1;
    }
    assert xs[..i] == xs;
  }

  /** Item `i` appears with number `first + i`, after the items before it and
      before the items after it. */
  lemma {:induction false} NumberedAt<T>(xs: seq<T>, first: int, entry: (int, T) -> string, i: nat)
    requires i < |xs|
    ensures Numbered(xs, first, entry)
         == Numbered(xs[..i], first, entry) + entry(first + i, xs[i]) + Numbered(xs[i + 1..], first + i + 1, entry)
    decreases i
  {
    if i > 0 {
      NumberedAt(xs[1..], first + 1, entry, i - 1);
      assert xs[1..][..i - 1] == xs[..i][1..];
      assert xs[1..][i..] == xs[i + 1..];
    }
  }

  /** Two listings whose entries agree item by item are the same text. */
  lemma {:induction false} NumberedSameEntries<T, U>(xs: seq<T>, ys: seq<U>, first: int,
                                                    e1: (int, T) -> string, e2: (int, U) -> string)
    requires |xs| == |ys|
    requires forall i :: 0 <= i < |xs| ==> e1(first + i, xs[i]) == e2(first + i, ys[i])
    ensures Numbered(xs, first, e1) == Numbered(ys, first, e2)
    decreases |xs|
  {
    if xs != [] {
      assert e1(first + 0, xs[0]) == e2(first + 0, ys[0]);
      forall i | 0 <= i < |xs| - 1
        ensures e1(first + 1 + i, xs[1..][i]) == e2(first + 1 + i, ys[1..][i])
      {
        assert e1(first + (i + 1), xs[i + 1]) == e2(first + (i + 1), ys[i + 1]);
      }
      NumberedSameEntries(xs[1..], ys[1..], first + 1, e1, e2);
    }
  }
}
