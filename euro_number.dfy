/** The euro-number parser (`parse_eur_number` in app.py, `parse_eur` in utils/Shared.py):
    find the first run of digits, separators and spaces, decide from the positions of `,`
    and `.` which one is the decimal separator, and read the rest as a number. */
module EuroNumber {
  import opened Common

  /** Python's `str.isspace()`, also what `\s` matches in a `str` pattern. */
  predicate IsSpace(c: char)
  {
    var n := c as int;
    (0x09 <= n <= 0x0D) || (0x1C <= n <= 0x20) || n == 0x85 || n == 0xA0 || n == 0x1680
      || (0x2000 <= n <= 0x200A) || n == 0x2028 || n == 0x2029 || n == 0x202F
      || n == 0x205F || n == 0x3000
  }

  /** `[0-9]`. */
  predicate IsDigit(c: char)
  {
    '0' <= c <= '9'
  }

  /** `[0-9\.\,\s]`. */
  predicate InClass(c: char)
  {
    IsDigit(c) || c == '.' || c == ',' || IsSpace(c)
  }

  /** Every character is a digit. */
  predicate AllDigits(s: string)
  {
    forall i :: 0 <= i < |s| ==> IsDigit(s[i])
  }

  /** The no-break space U+00A0. */
  const Nbsp: char := '\U{A0}'

  /** `s.replace(a, b)` for single characters. */
  function ReplaceChar(s: string, a: char, b: char): (r: string)
    ensures |r| == |s|
    ensures forall i :: 0 <= i < |s| ==> r[i] == (if s[i] == a then b else s[i])
  {
    seq(|s|, i requires 0 <= i < |s| => if s[i] == a then b else s[i])
  }

  /** `s.replace(a, "")`. */
  function RemoveChar(s: string, a: char): (r: string)
    ensures a !in r
    ensures forall c :: c in r ==> c in s
  {
    if s == [] then []
    else if s[|s| - 1] == a then RemoveChar(s[..|s| - 1], a)
    else RemoveChar(s[..|s| - 1], a) + [s[|s| - 1]]
  }

  /** Leading whitespace removed. */
  function LStrip(s: string): (r: string)
    ensures |r| <= |s| && r == s[|s| - |r|..]
    ensures r == [] || !IsSpace(r[0])
  {
    if s != [] && IsSpace(s[0]) then LStrip(s[1..]) else s
  }

  /** Trailing whitespace removed. */
  function RStrip(s: string): (r: string)
    ensures |r| <= |s| && r == s[..|r|]
    ensures r == [] || !IsSpace(r[|r| - 1])
  {
    if s != [] && IsSpace(s[|s| - 1]) then RStrip(s[..|s| - 1]) else s
  }

  /** `s.strip()`. */
  function Strip(s: string): string
  {
    RStrip(LStrip(s))
  }

  /** The index of the first digit at or after `from`, if any. */
  function FirstDigit(s: string, from: nat): (r: Option<nat>)
    requires from <= |s|
    ensures r.Some? ==> from <= r.value < |s| && IsDigit(s[r.value])
                        && forall k :: from <= k < r.value ==> !IsDigit(s[k])
    ensures r.None? ==> forall k :: from <= k < |s| ==> !IsDigit(s[k])
    decreases |s| - from
  {
    if from == |s| then None
    else if IsDigit(s[from]) then Some(from)
    else FirstDigit(s, from + 1)
  }

  /** Where the greedy `[0-9\.\,\s]*` starting at `i` stops. */
  function MatchEnd(s: string, i: nat): (j: nat)
    requires i <= |s|
    ensures i <= j <= |s|
    ensures forall k :: i <= k < j ==> InClass(s[k])
    ensures j == |s| || !InClass(s[j])
    decreases |s| - i
  {
    if i < |s| && InClass(s[i]) then MatchEnd(s, i + 1) else i
  }

  /** `s.rfind(c)`: the last index of `c`, or -1. */
  function RFind(s: string, c: char): (k: int)
    ensures -1 <= k < |s|
    ensures k == -1 <==> c !in s
    ensures k >= 0 ==> s[k] == c && forall m :: k < m < |s| ==> s[m] != c
  {
    if s == [] then -1
    else if s[|s| - 1] == c then |s| - 1
    else RFind(s[..|s| - 1], c)
  }

  /** `s.count(c)`. */
  function Count(s: string, c: char): nat
  {
    if s == [] then 0 else Count(s[..|s| - 1], c) + (if s[|s| - 1] == c then 1 else 0)
  }

  /** The number to convert: NBSPs turned into spaces, the text stripped, the first match of
      `([0-9][0-9\.\,\s]*)` taken and its spaces removed; `None` if there is no digit. */
  function ExtractNum(s: string): Option<string>
  {
    var t := Strip(ReplaceChar(s, Nbsp, ' '));
    match FirstDigit(t, 0)
    case None => None
    case Some(i) => Some(RemoveChar(t[i..MatchEnd(t, i)], ' '))
  }

  /** The separator rewrite: with both `,` and `.` present the later one is the decimal
      separator and the other is dropped; a `,` alone is decimal if 1 or 2 characters follow
      the last one, otherwise dropped; several `.` alone are all dropped. */
  function Normalize(num: string): string
  {
    if ',' in num && '.' in num then
      var last := MaxInt(RFind(num, ','), RFind(num, '.'));
      var dec := num[last];
      var thou := if dec == ',' then '.' else ',';
      ReplaceChar(RemoveChar(num, thou), dec, '.')
    else if ',' in num then
      var tail := |num| - 1 - RFind(num, ',');
      if tail == 1 || tail == 2 then ReplaceChar(RemoveChar(num, '.'), ',', '.')
      else RemoveChar(num, ',')
    else if Count(num, '.') > 1 then RemoveChar(num, '.')
    else num
  }

  /** The value of a string of digits. */
  function NatOf(d: string): nat
    requires AllDigits(d)
  {
    if d == [] then 0 else NatOf(d[..|d| - 1]) * 10 + (d[|d| - 1] as int - '0' as int)
  }

  /** The value of `int_part.frac_part`. */
  function DecimalOf(intPart: string, fracPart: string): real
    requires AllDigits(intPart) && AllDigits(fracPart)
  {
    NatOf(intPart) as real + NatOf(fracPart) as real / Pow10(|fracPart|) as real
  }

  /** `10 ** n`. */
  function Pow10(n: nat): (r: nat)
    ensures r >= 1
  {
    if n == 0 then 1 else 10 * Pow10(n - 1)
  }

  /** The first index of `c`; `c` must occur. */
  function Find(s: string, c: char): (k: nat)
    requires c in s
    ensures k < |s| && s[k] == c && forall m :: 0 <= m < k ==> s[m] != c
  {
    if s[0] == c then 0 else assert c in s[1..]; 1 + Find(s[1..], c)
  }

  /** Digits with at most one `.` and at least one digit: what `float` reads here. */
  predicate DecimalText(t: string)
  {
    (forall i :: 0 <= i < |t| ==> IsDigit(t[i]) || t[i] == '.') && Count(t, '.') <= 1
      && exists i :: 0 <= i < |t| && IsDigit(t[i])
  }

  /** The value of decimal text. */
  function DecimalValue(t: string): real
    requires DecimalText(t)
  {
    if '.' in t then
      var k := Find(t, '.');
      assert AllDigits(t[..k]) && AllDigits(t[k + 1..]) by {
        CountOneDot(t, k);
      }
      DecimalOf(t[..k], t[k + 1..])
    else NatOf(t) as real
  }

  /** `float(s)` on text made of digits, `.` and whitespace: surrounding whitespace is
      ignored, and what is left must be decimal text. */
  function FloatOf(s: string): Option<real>
  {
    var t := Strip(s);
    if DecimalText(t) then Some(DecimalValue(t)) else None
  }

  /** With at most one `.` in `t` and one at `k`, there is none elsewhere. */
  lemma CountOneDot(t: string, k: nat)
    requires k < |t| && t[k] == '.' && Count(t, '.') <= 1
    ensures forall m :: 0 <= m < |t| && m != k ==> t[m] != '.'
  {
    forall m | 0 <= m < |t| && m != k ensures t[m] != '.' {
      if t[m] == '.' {
        CountTwo(t, '.', MinInt(k, m), MaxInt(k, m));
      }
    }
  }

  /** Two occurrences count twice. */
  lemma {:induction false} CountTwo(s: string, c: char, i: nat, j: nat)
    requires i < j < |s| && s[i] == c && s[j] == c
    ensures Count(s, c) >= 2
  {
    var n := |s| - 1;
    if j < n {
      assert s[..n][i] == c && s[..n][j] == c;
      CountTwo(s[..n], c, i, j);
    } else {
      assert s[..n][i] == c;
      CountOne(s[..n], c, i);
    }
  }

  /** One occurrence counts once. */
  lemma {:induction false} CountOne(s: string, c: char, i: nat)
    requires i < |s| && s[i] == c
    ensures Count(s, c) >= 1
  {
    var n := |s| - 1;
    if i < n {
      assert s[..n][i] == c;
      CountOne(s[..n], c, i);
    }
  }

  /** The smaller of two integers. */
  function MinInt(a: int, b: int): int
  {
    if a <= b then a else b
  }

  /** The shared body of both parsers. */
  function ParseNumber(s: string): Option<real>
  {
    match ExtractNum(s)
    case None => None
    case Some(num) => FloatOf(Normalize(num))
  }

  /** `parse_eur_number` (app.py): `None` for a missing or empty string, otherwise the
      number read from it. */
  function ParseEurNumber(s: Option<string>): (r: Option<real>)
    ensures s == None || s == Some([]) ==> r == None
  {
    if s == None || s.value == [] then None else ParseNumber(s.value)
  }

  /** `parse_eur` (utils/Shared.py): reads `s or ""`. */
  function ParseEur(s: Option<string>): Option<real>
  {
    ParseNumber(if s == None then [] else s.value)
  }

  /** The two editions' parsers agree on every input, missing and empty included. */
  lemma ParsersAgree(s: Option<string>)
    ensures ParseEurNumber(s) == ParseEur(s)
  {
    if s == None || s.value == [] {
      assert ReplaceChar([], Nbsp, ' ') == [];
      assert Strip([]) == [];
    }
  }

  /** A digit of the stripped text is a digit of the original. */
  lemma StripKeepsChars(s: string)
    ensures forall i :: 0 <= i < |Strip(s)| ==> Strip(s)[i] in s
  {
    var l := LStrip(s);
    var r := RStrip(l);
    forall i | 0 <= i < |r| ensures r[i] in s {
      assert r[i] == l[i];
      assert l[i] == s[|s| - |l| + i];
    }
  }

  /** Text without a digit gives `None`. */
  lemma NoDigitNoNumber(s: string)
    requires forall i :: 0 <= i < |s| ==> !IsDigit(s[i])
    ensures ParseNumber(s) == None
  {
    var u := ReplaceChar(s, Nbsp, ' ');
    var t := Strip(u);
    StripKeepsChars(u);
    forall i | 0 <= i < |t| ensures !IsDigit(t[i]) {
      var j :| 0 <= j < |u| && u[j] == t[i];
      assert u[j] == (if s[j] == Nbsp then ' ' else s[j]);
    }
    assert FirstDigit(t, 0) == None;
    assert ExtractNum(s) == None;
  }

  /** Digits and the two separators only. */
  predicate SepDigits(s: string)
  {
    forall i :: 0 <= i < |s| ==> IsDigit(s[i]) || s[i] == '.' || s[i] == ','
  }

  /** The run of the class starting at `i` of text entirely in the class reaches its end. */
  lemma MatchEndAll(s: string, i: nat)
    requires i <= |s| && forall k :: i <= k < |s| ==> InClass(s[k])
    ensures MatchEnd(s, i) == |s|
  {
  }

  /** `replace` of an absent character does nothing. */
  lemma {:induction false} RemoveAbsent(s: string, a: char)
    requires a !in s
    ensures RemoveChar(s, a) == s
  {
    if s != [] {
      var n := |s| - 1;
      assert s[n] != a;
      assert a !in s[..n] by {
        assert forall i :: 0 <= i < n ==> s[..n][i] == s[i];
      }
      RemoveAbsent(s[..n], a);
      assert s[..n] + [s[n]] == s;
    }
  }

  /** Text of digits and separators that starts with a digit is taken whole. */
  lemma ExtractClean(x: string)
    requires x != [] && IsDigit(x[0]) && SepDigits(x)
    ensures ExtractNum(x) == Some(x)
  {
    assert Nbsp !in x && ' ' !in x by {
      forall i | 0 <= i < |x| ensures x[i] != Nbsp && x[i] != ' ' {
        assert IsDigit(x[i]) || x[i] == '.' || x[i] == ',';
      }
    }
    ReplaceAbsent(x, Nbsp, ' ');
    var u := ReplaceChar(x, Nbsp, ' ');
    assert u == x;
    assert !IsSpace(x[0]);
    assert LStrip(x) == x;
    assert !IsSpace(x[|x| - 1]) by {
      assert IsDigit(x[|x| - 1]) || x[|x| - 1] == '.' || x[|x| - 1] == ',';
    }
    assert RStrip(x) == x;
    assert Strip(u) == x;
    assert FirstDigit(x, 0) == Some(0);
    MatchEndAll(x, 0);
    assert x[0..|x|] == x;
    RemoveAbsent(x, ' ');
  }

  /** `replace` of an absent character does nothing. */
  lemma ReplaceAbsent(s: string, a: char, b: char)
    requires a !in s
    ensures ReplaceChar(s, a, b) == s
  {
  }

  /** `replace(a, "")` splits over concatenation. */
  lemma {:induction false} RemoveConcat(s: string, t: string, a: char)
    ensures RemoveChar(s + t, a) == RemoveChar(s, a) + RemoveChar(t, a)
    decreases |t|
  {
    if t == [] {
      assert s + t == s;
    } else {
      var n := |t| - 1;
      assert (s + t)[..|s + t| - 1] == s + t[..n];
      assert (s + t)[|s + t| - 1] == t[n];
      RemoveConcat(s, t[..n], a);
    }
  }

  /** `replace(a, b)` splits over concatenation. */
  lemma ReplaceConcat(s: string, t: string, a: char, b: char)
    ensures ReplaceChar(s + t, a, b) == ReplaceChar(s, a, b) + ReplaceChar(t, a, b)
  {
  }

  /** The last occurrence of `c` when nothing after it is `c`. */
  lemma {:induction false} RFindAt(s: string, c: char, t: string)
    requires c !in t
    ensures RFind(s + [c] + t, c) == |s|
    decreases |t|
  {
    var x := s + [c] + t;
    if t == [] {
      assert x[|x| - 1] == c;
    } else {
      var n := |t| - 1;
      assert x[..|x| - 1] == s + [c] + t[..n];
      assert x[|x| - 1] == t[n];
      RFindAt(s, c, t[..n]);
    }
  }

  /** The last occurrence of `c` lies before `|s|` when `t` has none. */
  lemma {:induction false} RFindBefore(s: string, c: char, t: string)
    requires c in s && c !in t
    ensures 0 <= RFind(s + t, c) < |s|
    decreases |t|
  {
    var x := s + t;
    if t == [] {
      assert x == s;
    } else {
      var n := |t| - 1;
      assert x[..|x| - 1] == s + t[..n];
      assert x[|x| - 1] == t[n];
      RFindBefore(s, c, t[..n]);
    }
  }

  /** Reading `int_part.frac_part` and `int_part` as Python's `float` does. */
  lemma FloatOfDecimal(a: string, f: string)
    requires AllDigits(a) && AllDigits(f) && a + f != []
    ensures FloatOf(a + "." + f) == Some(DecimalOf(a, f))
  {
    var t := a + "." + f;
    DecimalTextOf(a, f);
    StripNoEdge(t);
    DecimalValueOf(a, f);
  }

  /** `a.f` is decimal text that neither starts nor ends with whitespace. */
  lemma DecimalTextOf(a: string, f: string)
    requires AllDigits(a) && AllDigits(f) && a + f != []
    ensures var t := a + "." + f; DecimalText(t) && !IsSpace(t[0]) && !IsSpace(t[|t| - 1])
  {
    var t := a + "." + f;
    assert t[|a|] == '.';
    assert forall m :: 0 <= m < |a| ==> t[m] == a[m];
    assert forall m :: |a| < m < |t| ==> t[m] == f[m - |a| - 1];
    DotsOf(a, f);
    if a != [] { assert IsDigit(t[0]); } else { assert IsDigit(t[|a| + 1]); }
  }

  /** The value of `a.f` is `a` plus `f` tenths, hundredths, .... */
  lemma DecimalValueOf(a: string, f: string)
    requires AllDigits(a) && AllDigits(f) && DecimalText(a + "." + f)
    ensures DecimalValue(a + "." + f) == DecimalOf(a, f)
  {
    var t := a + "." + f;
    assert t[|a|] == '.';
    assert forall m :: 0 <= m < |a| ==> t[m] == a[m];
    var k := Find(t, '.');
    assert k == |a|;
    assert t[..k] == a;
    assert t[k + 1..] == f;
  }

  /** Text that neither starts nor ends with whitespace is its own `strip()`. */
  lemma StripNoEdge(t: string)
    requires t == [] || (!IsSpace(t[0]) && !IsSpace(t[|t| - 1]))
    ensures Strip(t) == t
  {
  }

  /** `a.f` has exactly one dot. */
  lemma DotsOf(a: string, f: string)
    requires AllDigits(a) && AllDigits(f)
    ensures Count(a + "." + f, '.') == 1
  {
    NoDotCount(a);
    NoDotCount(f);
    CountConcat(a + ".", f, '.');
    CountConcat(a, ".", '.');
    assert Count(".", '.') == 1 by {
      assert "."[..0] == [];
    }
  }

  /** No digit string holds a dot. */
  lemma NoDotCount(d: string)
    requires AllDigits(d)
    ensures Count(d, '.') == 0
  {
    if d != [] {
      NoDotCount(d[..|d| - 1]);
    }
  }

  /** `count` adds over concatenation. */
  lemma {:induction false} CountConcat(s: string, t: string, c: char)
    ensures Count(s + t, c) == Count(s, c) + Count(t, c)
    decreases |t|
  {
    if t == [] {
      assert s + t == s;
    } else {
      var n := |t| - 1;
      assert (s + t)[..|s + t| - 1] == s + t[..n];
      assert (s + t)[|s + t| - 1] == t[n];
      CountConcat(s, t[..n], c);
    }
  }

  /** Reading a string of digits. */
  lemma FloatOfNat(a: string)
    requires AllDigits(a) && a != []
    ensures FloatOf(a) == Some(NatOf(a) as real)
  {
    assert LStrip(a) == a by { assert !IsSpace(a[0]); }
    assert RStrip(a) == a by { assert !IsSpace(a[|a| - 1]); }
    NoDotCount(a);
    assert IsDigit(a[0]);
  }

  /** A digit string with one separator character removed is unchanged. */
  lemma RemoveFromDigits(d: string, a: char)
    requires AllDigits(d) && !IsDigit(a)
    ensures RemoveChar(d, a) == d
  {
    assert a !in d;
    RemoveAbsent(d, a);
  }

  /** The characters `.` and `,` are not digits. */
  lemma SeparatorsNotDigits()
    ensures !IsDigit('.') && !IsDigit(',')
  {
  }

  /** Joining two strings of digits and separators by a separator. */
  lemma JoinSep(a: string, c: char, f: string)
    requires SepDigits(a) && SepDigits(f) && (c == '.' || c == ',')
    ensures SepDigits(a + [c] + f)
  {
    var x := a + [c] + f;
    assert forall m :: 0 <= m < |a| ==> x[m] == a[m];
    assert forall m :: |a| < m < |x| ==> x[m] == f[m - |a| - 1];
  }

  /** Clean text that starts with a digit goes straight to the separator rewrite. */
  lemma ParseClean(x: string)
    requires x != [] && IsDigit(x[0]) && SepDigits(x)
    ensures ParseNumber(x) == FloatOf(Normalize(x))
  {
    ExtractClean(x);
  }

  /** Removing the only non-digit character leaves digits. */
  lemma {:induction false} RemoveLeavesDigits(s: string, a: char)
    requires forall i :: 0 <= i < |s| ==> IsDigit(s[i]) || s[i] == a
    ensures AllDigits(RemoveChar(s, a))
  {
    if s != [] {
      RemoveLeavesDigits(s[..|s| - 1], a);
    }
  }

  /** A character other than the removed one survives the removal. */
  lemma {:induction false} RemoveKeeps(s: string, a: char, i: nat)
    requires i < |s| && s[i] != a
    ensures s[i] in RemoveChar(s, a)
  {
    var n := |s| - 1;
    if i < n {
      assert s[..n][i] == s[i];
      RemoveKeeps(s[..n], a, i);
    }
  }

  /** Removing a character from `a + [c] + f` when it is not `c` and `f` has none. */
  lemma RemoveAround(a: string, c: char, f: string, d: char)
    requires c != d && d !in f
    ensures RemoveChar(a + [c] + f, d) == RemoveChar(a, d) + [c] + f
  {
    RemoveConcat(a + [c], f, d);
    RemoveConcat(a, [c], d);
    RemoveAbsent(f, d);
    assert [c][..0] == [];
  }

  /** Removing the separator itself from `a + [d] + f` when `f` has none. */
  lemma RemoveSep(a: string, d: char, f: string)
    requires d !in f
    ensures RemoveChar(a + [d] + f, d) == RemoveChar(a, d) + f
  {
    RemoveConcat(a + [d], f, d);
    RemoveConcat(a, [d], d);
    RemoveAbsent(f, d);
    assert [d][..0] == [];
  }

  /** With dots before a final comma, the comma becomes the decimal point and the dots go. */
  lemma NormalizeEuropean(a: string, f: string)
    requires '.' in a && ',' !in a && AllDigits(f)
    ensures Normalize(a + [','] + f) == RemoveChar(a, '.') + ['.'] + f
  {
    var x := a + [','] + f;
    assert ',' !in f && '.' !in f;
    RFindAt(a, ',', f);
    assert x == a + ([','] + f);
    RFindBefore(a, '.', [','] + f);
    assert x[|a|] == ',';
    var i :| 0 <= i < |a| && a[i] == '.';
    assert x[i] == '.';
    var last := MaxInt(RFind(x, ','), RFind(x, '.'));
    assert last == |a|;
    assert Normalize(x) == ReplaceChar(RemoveChar(x, '.'), ',', '.');
    RemoveAround(a, ',', f, '.');
    var ra := RemoveChar(a, '.');
    assert ',' !in ra;
    ReplaceSeparator(ra, ',', f);
  }

  /** With commas before a final dot, the dot stays the decimal point and the commas go. */
  lemma NormalizeUs(a: string, f: string)
    requires ',' in a && '.' !in a && AllDigits(f)
    ensures Normalize(a + ['.'] + f) == RemoveChar(a, ',') + ['.'] + f
  {
    var x := a + ['.'] + f;
    assert ',' !in f && '.' !in f;
    RFindAt(a, '.', f);
    assert x == a + (['.'] + f);
    RFindBefore(a, ',', ['.'] + f);
    assert x[|a|] == '.';
    var i :| 0 <= i < |a| && a[i] == ',';
    assert x[i] == ',';
    RemoveAround(a, '.', f, ',');
    var ra := RemoveChar(a, ',');
    var y := ra + ['.'] + f;
    assert ReplaceChar(y, '.', '.') == y;
  }

  /** European grouping, `"1.234.567,89"`: with dots in the integer part and a comma after
      it, the comma is the decimal separator and the dots are dropped. */
  lemma EuropeanGrouping(a: string, f: string)
    requires a != [] && IsDigit(a[0]) && '.' in a
    requires forall i :: 0 <= i < |a| ==> IsDigit(a[i]) || a[i] == '.'
    requires AllDigits(f)
    ensures AllDigits(RemoveChar(a, '.'))
         && ParseNumber(a + "," + f) == Some(DecimalOf(RemoveChar(a, '.'), f))
  {
    assert ',' !in a by {
      forall i | 0 <= i < |a| ensures a[i] != ',' {
        assert IsDigit(a[i]) || a[i] == '.';
      }
    }
    RemoveLeavesDigits(a, '.');
    RemoveKeeps(a, '.', 0);
    FloatOfDecimal(RemoveChar(a, '.'), f);
    JoinSep(a, ',', f);
    ParseClean(a + [','] + f);
    NormalizeEuropean(a, f);
  }

  /** US grouping, `"1,234,567.89"`: with commas in the integer part and a dot after it, the
      dot is the decimal separator and the commas are dropped. */
  lemma UsGrouping(a: string, f: string)
    requires a != [] && IsDigit(a[0]) && ',' in a
    requires forall i :: 0 <= i < |a| ==> IsDigit(a[i]) || a[i] == ','
    requires AllDigits(f)
    ensures AllDigits(RemoveChar(a, ','))
         && ParseNumber(a + "." + f) == Some(DecimalOf(RemoveChar(a, ','), f))
  {
    assert '.' !in a by {
      forall i | 0 <= i < |a| ensures a[i] != '.' {
        assert IsDigit(a[i]) || a[i] == ',';
      }
    }
    RemoveLeavesDigits(a, ',');
    RemoveKeeps(a, ',', 0);
    FloatOfDecimal(RemoveChar(a, ','), f);
    JoinSep(a, '.', f);
    ParseClean(a + ['.'] + f);
    NormalizeUs(a, f);
  }

  /** A lone comma followed by one or two characters is the decimal point. */
  lemma NormalizeCommaDecimal(a: string, f: string)
    requires AllDigits(a) && AllDigits(f) && (|f| == 1 || |f| == 2)
    ensures Normalize(a + [','] + f) == a + ['.'] + f
  {
    var x := a + [','] + f;
    assert ',' !in f && '.' !in f && '.' !in a && ',' !in a;
    RFindAt(a, ',', f);
    assert x[|a|] == ',';
    assert '.' !in x;
    assert |x| - 1 - RFind(x, ',') == |f|;
    assert Normalize(x) == ReplaceChar(RemoveChar(x, '.'), ',', '.');
    RemoveAbsent(x, '.');
    ReplaceSeparator(a, ',', f);
  }

  /** Replacing the only `c` turns it into the decimal point. */
  lemma ReplaceSeparator(a: string, c: char, f: string)
    requires c !in a && c !in f
    ensures ReplaceChar(a + [c] + f, c, '.') == a + ['.'] + f
  {
    var x := a + [c] + f;
    var y := a + ['.'] + f;
    forall i | 0 <= i < |x| ensures ReplaceChar(x, c, '.')[i] == y[i] {
      if i < |a| {
        assert x[i] == a[i] && y[i] == a[i];
      } else if i == |a| {
        assert x[i] == c && y[i] == '.';
      } else {
        assert x[i] == f[i - |a| - 1] && y[i] == f[i - |a| - 1];
      }
    }
  }

  /** A lone comma followed by one or two digits is the decimal separator: `"1,5"`. */
  lemma CommaDecimal(a: string, f: string)
    requires a != [] && AllDigits(a) && AllDigits(f) && (|f| == 1 || |f| == 2)
    ensures ParseNumber(a + "," + f) == Some(DecimalOf(a, f))
  {
    JoinSep(a, ',', f);
    ParseClean(a + [','] + f);
    NormalizeCommaDecimal(a, f);
    FloatOfDecimal(a, f);
  }

  /** Commas alone, the last followed by other than 1 or 2 characters, are all dropped. */
  lemma NormalizeCommaThousands(a: string, g: string)
    requires ',' !in g && '.' !in g && '.' !in a && |g| != 1 && |g| != 2
    ensures Normalize(a + [','] + g) == RemoveChar(a, ',') + g
  {
    var x := a + [','] + g;
    RFindAt(a, ',', g);
    assert x[|a|] == ',';
    assert '.' !in x;
    RemoveConcat(a + [','], g, ',');
    RemoveConcat(a, [','], ',');
    RemoveAbsent(g, ',');
    assert RemoveChar([','], ',') == [] by {
      assert [','][..0] == [];
    }
  }

  /** Commas alone whose last group is not 1 or 2 characters long are thousands
      separators: `"1,234"`, `"1,234,567"`. */
  lemma CommaThousands(a: string, g: string)
    requires a != [] && IsDigit(a[0]) && AllDigits(g) && |g| != 1 && |g| != 2
    requires forall i :: 0 <= i < |a| ==> IsDigit(a[i]) || a[i] == ','
    ensures AllDigits(RemoveChar(a, ',') + g)
         && ParseNumber(a + "," + g) == Some(NatOf(RemoveChar(a, ',') + g) as real)
  {
    assert '.' !in a by {
      forall i | 0 <= i < |a| ensures a[i] != '.' {
        assert IsDigit(a[i]) || a[i] == ',';
      }
    }
    assert ',' !in g && '.' !in g by {
      forall i | 0 <= i < |g| ensures g[i] != ',' && g[i] != '.' {
        assert IsDigit(g[i]);
      }
    }
    RemoveLeavesDigits(a, ',');
    RemoveKeeps(a, ',', 0);
    var r := RemoveChar(a, ',') + g;
    DigitsConcat(RemoveChar(a, ','), g);
    FloatOfNat(r);
    JoinSep(a, ',', g);
    ParseClean(a + [','] + g);
    NormalizeCommaThousands(a, g);
  }

  /** Digits followed by digits are digits. */
  lemma DigitsConcat(a: string, b: string)
    requires AllDigits(a) && AllDigits(b)
    ensures AllDigits(a + b)
  {
    forall i | 0 <= i < |a + b| ensures IsDigit((a + b)[i]) {
      if i < |a| {
        assert (a + b)[i] == a[i];
      } else {
        assert (a + b)[i] == b[i - |a|];
      }
    }
  }

  /** Several dots and no comma are all thousands separators: `"1.234.567"`. */
  lemma ManyDots(x: string)
    requires x != [] && IsDigit(x[0]) && Count(x, '.') > 1
    requires forall i :: 0 <= i < |x| ==> IsDigit(x[i]) || x[i] == '.'
    ensures AllDigits(RemoveChar(x, '.'))
         && ParseNumber(x) == Some(NatOf(RemoveChar(x, '.')) as real)
  {
    assert ',' !in x by {
      forall i | 0 <= i < |x| ensures x[i] != ',' {
        assert IsDigit(x[i]) || x[i] == '.';
      }
    }
    RemoveLeavesDigits(x, '.');
    RemoveKeeps(x, '.', 0);
    FloatOfNat(RemoveChar(x, '.'));
    assert Normalize(x) == RemoveChar(x, '.');
    ParseClean(x);
  }

  /** One dot and no comma is a decimal point, also before three digits: `"1.234"` is read
      as 1.234. */
  lemma OneDot(a: string, f: string)
    requires a != [] && AllDigits(a) && AllDigits(f)
    ensures ParseNumber(a + "." + f) == Some(DecimalOf(a, f))
  {
    var x := a + ['.'] + f;
    assert ',' !in x by {
      forall i | 0 <= i < |x| ensures x[i] != ',' {
        if i < |a| {
          assert x[i] == a[i];
        } else if i > |a| {
          assert x[i] == f[i - |a| - 1];
        }
      }
    }
    DotsOf(a, f);
    FloatOfDecimal(a, f);
    assert Normalize(x) == x;
    JoinSep(a, '.', f);
    ParseClean(x);
  }

  /** `"1234"` reads as 1234. */
  lemma NatOf1234()
    ensures NatOf("1234") == 1234
  {
    assert "1234"[..3] == "123" && "123"[..2] == "12" && "12"[..1] == "1" && "1"[..0] == [];
  }

  /** The pieces of `"1.234,56"`. */
  lemma EuropeanPieces()
    ensures "1.234,56" == "1.234" + "," + "56"
    ensures '.' in "1.234" && RemoveChar("1.234", '.') == "1234"
    ensures DecimalOf("1234", "56") == 1234.56
  {
    assert "1.234"[1] == '.';
    assert "1.234" == "1" + ['.'] + "234";
    RemoveSep("1", '.', "234");
    RemoveAbsent("1", '.');
    assert "1" + "234" == "1234";
    NatOf1234();
    assert "56"[..1] == "5" && "5"[..0] == [];
    assert Pow10(2) == 100;
  }

  /** `"1.234,56"` is 1234.56. */
  lemma ExampleEuropean()
    ensures ParseNumber("1.234,56") == Some(1234.56)
  {
    EuropeanPieces();
    EuropeanGrouping("1.234", "56");
  }

  /** The pieces of `"1,5"`. */
  lemma CommaDecimalPieces()
    ensures "1,5" == "1" + "," + "5"
    ensures DecimalOf("1", "5") == 1.5
  {
    assert "1"[..0] == [] && "5"[..0] == [];
    assert Pow10(1) == 10;
  }

  /** `"1,5"` is 1.5. */
  lemma ExampleCommaDecimal()
    ensures ParseNumber("1,5") == Some(1.5)
  {
    CommaDecimalPieces();
    CommaDecimal("1", "5");
  }

  /** The pieces of `"1,234"`. */
  lemma CommaThousandsPieces()
    ensures "1,234" == "1" + "," + "234"
    ensures RemoveChar("1", ',') + "234" == "1234"
    ensures NatOf("1234") == 1234
  {
    RemoveAbsent("1", ',');
    NatOf1234();
  }

  /** `"1,234"` is 1234. */
  lemma ExampleCommaThousands()
    ensures ParseNumber("1,234") == Some(1234.0)
  {
    CommaThousandsPieces();
    CommaThousands("1", "234");
  }

  /** `"1.234.567"` has two dots and otherwise digits. */
  lemma ManyDotsCount()
    ensures Count("1.234.567", '.') == 2
    ensures forall i :: 0 <= i < |"1.234.567"| ==> IsDigit("1.234.567"[i]) || "1.234.567"[i] == '.'
  {
    assert "1.234.567" == ("1" + "." + "234") + ("." + "567");
    CountConcat("1" + "." + "234", "." + "567", '.');
    DotsOf("1", "234");
    DotsOf("", "567");
    assert "" + "." + "567" == "." + "567";
  }

  /** `"1.234.567"` without its dots. */
  lemma ManyDotsRemoved()
    ensures RemoveChar("1.234.567", '.') == "1234567"
  {
    assert "1.234.567" == "1.234" + ['.'] + "567";
    RemoveSep("1.234", '.', "567");
    assert "1.234" == "1" + ['.'] + "234";
    RemoveSep("1", '.', "234");
    RemoveAbsent("1", '.');
    assert "1" + "234" + "567" == "1234567";
  }

  /** `"1234567"` reads as 1234567. */
  lemma NatOf1234567()
    ensures NatOf("1234567") == 1234567
  {
    NatOf1234();
    assert "1234567"[..6] == "123456" && "123456"[..5] == "12345" && "12345"[..4] == "1234";
  }

  /** `"1.234.567"` is 1234567. */
  lemma ExampleManyDots()
    ensures ParseNumber("1.234.567") == Some(1234567.0)
  {
    ManyDotsCount();
    ManyDotsRemoved();
    NatOf1234567();
    ManyDots("1.234.567");
  }

  /** The pieces of `"1,234.5"`. */
  lemma UsPieces()
    ensures "1,234.5" == "1,234" + "." + "5"
    ensures ',' in "1,234" && RemoveChar("1,234", ',') == "1234"
    ensures DecimalOf("1234", "5") == 1234.5
  {
    assert "1,234"[1] == ',';
    assert "1,234" == "1" + [','] + "234";
    RemoveSep("1", ',', "234");
    RemoveAbsent("1", ',');
    assert "1" + "234" == "1234";
    NatOf1234();
    assert "5"[..0] == [];
    assert Pow10(1) == 10;
  }

  /** `"1,234.5"` is 1234.5. */
  lemma ExampleUs()
    ensures ParseNumber("1,234.5") == Some(1234.5)
  {
    UsPieces();
    UsGrouping("1,234", "5");
  }
}
