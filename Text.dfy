/** String primitives the amount parser is built from: Python's `str.lower`
    (restricted to the letters that matter), `str.replace` and `str.isdigit`
    (restricted to ASCII digits), and `int` on a digit string. */
module Text {

  /** Lower-case one character, as `str.lower` does for ASCII `A`..`Z` and for
      the basic Cyrillic capitals U+0400..U+042F (`Ѐ`..`Џ` and `А`..`Я`).
      Every other character is left as it is. */
  function LowerChar(c: char): (r: char)
    ensures 'A' <= c <= 'Z' ==> 'a' <= r <= 'z'
    ensures 'А' <= c <= 'Я' ==> 'а' <= r <= 'я'
    ensures c == 'К' ==> r == 'к'
    ensures c == 'Р' ==> r == 'р'
    ensures c == 'У' ==> r == 'у'
    ensures c == 'Б' ==> r == 'б'
    ensures !IsCapital(c) ==> r == c
    ensures !IsCapital(r)
    ensures IsDigit(r) <==> IsDigit(c)
  {
    if 'A' <= c <= 'Z' then (c as int + 32) as char
    else if 'Ѐ' <= c <= 'Џ' then (c as int + 0x50) as char
    else if 'А' <= c <= 'Я' then (c as int + 0x20) as char
    else c
  }

  /** The capitals `LowerChar` maps: ASCII and U+0400..U+042F. */
  predicate IsCapital(c: char) {
    'A' <= c <= 'Z' || 'Ѐ' <= c <= 'Я'
  }

  /** `s.lower()`, character by character. */
  function Lower(s: string): (r: string)
    ensures |r| == |s|
    ensures forall i :: 0 <= i < |s| ==> r[i] == LowerChar(s[i])
  {
    seq(|s|, i requires 0 <= i < |s| => LowerChar(s[i]))
  }

  /** The lowered text holds no capital, and a text without capitals is
      left exactly as it is, so lowering twice is lowering once. */
  lemma LowerCapitals(s: string)
    ensures forall i :: 0 <= i < |Lower(s)| ==> !IsCapital(Lower(s)[i])
    ensures (forall i :: 0 <= i < |s| ==> !IsCapital(s[i])) ==> Lower(s) == s
    ensures Lower(Lower(s)) == Lower(s)
  {
  }

  lemma LowerAppend(a: string, b: string)
    ensures Lower(a + b) == Lower(a) + Lower(b)
  {
  }

  predicate IsDigit(c: char) {
    '0' <= c <= '9'
  }

  /** `s.isdigit()` on ASCII: false for the empty string. */
  predicate IsDigits(s: string) {
    |s| > 0 && AllDigits(s)
  }

  predicate AllDigits(s: string) {
    forall i :: 0 <= i < |s| ==> IsDigit(s[i])
  }

  /** Lowering leaves a digit string as it is. */
  lemma LowerDigits(d: string)
    requires AllDigits(d)
    ensures Lower(d) == d
  {
  }

  /** `s.replace(pat, rep)`: scan left to right, replacing each occurrence of
      `pat` that does not overlap an earlier replaced one. A one-character
      pattern that the replacement does not contain is gone afterwards. */
  function ReplaceAll(s: string, pat: string, rep: string): (r: string)
    requires pat != []
    ensures |pat| == 1 && pat[0] !in rep ==> pat[0] !in r
    decreases |s|
  {
    if |s| < |pat| then s
    else if s[..|pat|] == pat then
      rep + ReplaceAll(s[|pat|..], pat, rep)
    else
      assert |pat| == 1 ==> s[0] != pat[0] by {
        if |pat| == 1 { assert s[..1] == [s[0]]; }
      }
      [s[0]] + ReplaceAll(s[1..], pat, rep)
  }

  /** A character that neither the pattern nor the replacement mentions
      survives the replacement. */
  lemma {:induction false} ReplaceKeeps(s: string, pat: string, rep: string, c: char)
    requires pat != [] && c !in pat && c !in rep
    ensures c in ReplaceAll(s, pat, rep) <==> c in s
    decreases |s|
  {
    if |s| < |pat| {
    } else if s[..|pat|] == pat {
      ReplaceKeeps(s[|pat|..], pat, rep, c);
      assert s == pat + s[|pat|..];
    } else {
      ReplaceKeeps(s[1..], pat, rep, c);
      assert s == [s[0]] + s[1..];
    }
  }

  /** Replacing a single character distributes over concatenation: no
      occurrence can straddle the seam. */
  lemma {:induction false} ReplaceCharAppend(a: string, b: string, pat: string, rep: string)
    requires |pat| == 1
    ensures ReplaceAll(a + b, pat, rep) == ReplaceAll(a, pat, rep) + ReplaceAll(b, pat, rep)
    decreases |a|
  {
    if a == [] {
      assert a + b == b;
    } else {
      var s := a + b;
      assert s[..1] == a[..1];
      assert s[1..] == a[1..] + b;
      ReplaceCharAppend(a[1..], b, pat, rep);
    }
  }

  /** A prefix that does not contain the pattern's first character is copied
      through unchanged: no occurrence can start inside it. */
  lemma {:induction false} ReplaceSkipsPrefix(d: string, u: string, pat: string, rep: string)
    requires pat != [] && pat[0] !in d
    ensures ReplaceAll(d + u, pat, rep) == d + ReplaceAll(u, pat, rep)
    decreases |d|
  {
    if d != [] {
      var s := d + u;
      assert s[0] == d[0];
      if |s| >= |pat| {
        assert s[..|pat|][0] == d[0];
      }
      assert s[1..] == d[1..] + u;
      ReplaceSkipsPrefix(d[1..], u, pat, rep);
    } else {
      assert d + u == u;
    }
  }

  /** The value of a decimal digit string, as `int(s)` computes it. */
  function Value(s: string): nat
    requires AllDigits(s)
    decreases |s|
  {
    if s == [] then 0
    else Value(s[..|s| - 1]) * 10 + (s[|s| - 1] as int - '0' as int)
  }

  /** The shortest decimal spelling of `n`, as `str(n)` gives it. */
  function Decimal(n: nat): (r: string)
    ensures IsDigits(r)
  {
    if n < 10 then [('0' as int + n) as char]
    else Decimal(n / 10) + [('0' as int + n % 10) as char]
  }

  /** `int(str(n)) == n`. */
  lemma {:induction false} ValueOfDecimal(n: nat)
    ensures Value(Decimal(n)) == n
  {
    var r := Decimal(n);
    if n >= 10 {
      ValueOfDecimal(n / 10);
      assert r[..|r| - 1] == Decimal(n / 10);
    }
  }

  /** A digit string that does not start with `0` is worth at least one. */
  lemma {:induction false} ValueLeading(s: string)
    requires IsDigits(s) && s[0] != '0'
    ensures Value(s) >= 1
    decreases |s|
  {
    if |s| > 1 {
      ValueLeading(s[..|s| - 1]);
    }
  }

  /** `str(int(s)) == s` for a digit string without a leading zero (or the
      single digit `0`): the conversion loses nothing but leading zeros. */
  lemma {:induction false} DecimalOfValue(s: string)
    requires IsDigits(s) && (s[0] != '0' || |s| == 1)
    ensures Decimal(Value(s)) == s
    decreases |s|
  {
    if |s| == 1 {
      assert s[..0] == [];
      assert s == [s[0]];
    } else {
      var p := s[..|s| - 1];
      var d := s[|s| - 1] as int - '0' as int;
      assert p[0] == s[0];
      ValueLeading(p);
      DecimalOfValue(p);
      var n := Value(s);
      assert n == Value(p) * 10 + d && 0 <= d < 10;
      assert n / 10 == Value(p) && n % 10 == d;
      assert s == p + [s[|s| - 1]];
    }
  }

  /** Appending three zeros multiplies the value by a thousand. */
  lemma ValueTimesThousand(s: string)
    requires AllDigits(s)
    ensures AllDigits(s + "000") && Value(s + "000") == Value(s) * 1000
  {
    var s1, s2, s3 := s + "0", s + "00", s + "000";
    assert s1[..|s1| - 1] == s;
    assert s2[..|s2| - 1] == s1;
    assert s3[..|s3| - 1] == s2;
    assert Value(s1) == Value(s) * 10;
    assert Value(s2) == Value(s1) * 10;
    assert Value(s3) == Value(s2) * 10;
  }
}
