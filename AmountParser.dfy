/** The free-text amount parser of `handle_custom_amount_message`: lower-case,
    drop spaces, drop the currency word `руб` and then every `р`, spell each
    `к` as `000`, and accept the result only if it is a non-empty run of
    digits. */
module AmountParser {
  import opened Text

  datatype Option<+T> = None | Some(value: T)

  /** The characters that can occur, after lower-casing, in an accepted text. */
  predicate Allowed(c: char) {
    IsDigit(c) || c == ' ' || c == 'р' || c == 'у' || c == 'б' || c == 'к'
  }

  /** Lower-case, then delete every space, every `руб` and every `р`, in
      that order. */
  function Normalise(text: string): (r: string)
    ensures ' ' !in r && 'р' !in r
  {
    var lowered := Lower(text);
    var noSpaces := ReplaceAll(lowered, " ", "");
    var noWord := ReplaceAll(noSpaces, "руб", "");
    ReplaceKeeps(noSpaces, "руб", "", ' ');
    ReplaceKeeps(noWord, "р", "", ' ');
    ReplaceAll(noWord, "р", "")
  }

  /** The thousand shorthand: each `к` is replaced by the text `000`; this is
      a substitution, not a multiplication. */
  function ExpandThousands(n: string): (r: string)
    ensures 'к' !in r
    ensures ' ' !in n ==> ' ' !in r
    ensures 'р' !in n ==> 'р' !in r
  {
    if 'к' in n then
      ReplaceKeeps(n, "к", "000", ' ');
      ReplaceKeeps(n, "к", "000", 'р');
      ReplaceAll(n, "к", "000")
    else n
  }

  /** The string whose digits are checked and converted. */
  function Expanded(text: string): (r: string)
    ensures ' ' !in r && 'р' !in r && 'к' !in r
  {
    ExpandThousands(Normalise(text))
  }

  /** The amount a message denotes, or None when `isdigit` rejects the
      checked string and the message is to be answered with a request for a
      correct amount. This is `isdigit` followed by `int` without CPython's
      cap on the number of digits: `Handlers.OnText` applies that cap
      (`MaxStrDigits`) before it uses the amount. Only digits, spaces and
      the letters of `руб` and `к` (in either case) can make up an accepted
      text. */
  function ParseAmount(text: string): (r: Option<nat>)
    ensures r.Some? ==> forall i :: 0 <= i < |text| ==> Allowed(LowerChar(text[i]))
  {
    var e := Expanded(text);
    if IsDigits(e) then
      ParseAlphabet(text);
      Some(Value(e))
    else None
  }

  /** CPython's default cap on the digits `int` converts from a string
      (`sys.int_info.default_max_str_digits`); a longer digit string makes
      `int` raise `ValueError`. */
  const MaxStrDigits: nat := 4300

  /** A character that lower-cases to anything outside the accepted alphabet
      survives every deletion and replacement. */
  lemma Survives(text: string, i: int)
    requires 0 <= i < |text| && !Allowed(LowerChar(text[i]))
    ensures LowerChar(text[i]) in Expanded(text)
  {
    var c := LowerChar(text[i]);
    var lowered := Lower(text);
    assert c == lowered[i];
    var noSpaces := ReplaceAll(lowered, " ", "");
    var noWord := ReplaceAll(noSpaces, "руб", "");
    var n := ReplaceAll(noWord, "р", "");
    ReplaceKeeps(lowered, " ", "", c);
    ReplaceKeeps(noSpaces, "руб", "", c);
    ReplaceKeeps(noWord, "р", "", c);
    assert n == Normalise(text);
    if 'к' in n {
      ReplaceKeeps(n, "к", "000", c);
    }
  }

  /** So a text whose checked string is all digits holds, after
      lower-casing, only digits, spaces and the letters of `руб` and `к`. */
  lemma ParseAlphabet(text: string)
    requires IsDigits(Expanded(text))
    ensures forall i :: 0 <= i < |text| ==> Allowed(LowerChar(text[i]))
  {
    forall i | 0 <= i < |text|
      ensures Allowed(LowerChar(text[i]))
    {
      if !Allowed(LowerChar(text[i])) {
        Survives(text, i);
      }
    }
  }

  /** Text after a run of digits is normalised on its own: no deleted or
      replaced pattern can start inside the digits. */
  lemma ExpandedAfterDigits(d: string, u: string)
    requires AllDigits(d)
    ensures Expanded(d + u) == d + Expanded(u)
  {
    assert forall i :: 0 <= i < |d| ==> d[i] != ' ' && d[i] != 'р' && d[i] != 'к';
    LowerAppend(d, u);
    LowerDigits(d);
    var lu := Lower(u);
    ReplaceSkipsPrefix(d, lu, " ", "");
    var s1 := ReplaceAll(lu, " ", "");
    ReplaceSkipsPrefix(d, s1, "руб", "");
    var s2 := ReplaceAll(s1, "руб", "");
    ReplaceSkipsPrefix(d, s2, "р", "");
    var n := ReplaceAll(s2, "р", "");
    assert Normalise(d + u) == d + n;
    assert Normalise(u) == n;
    assert ('к' in d + n) <==> ('к' in n);
    if 'к' in n {
      ReplaceSkipsPrefix(d, n, "к", "000");
    }
  }

  /** A digit string followed by text that normalises to nothing (a currency
      word, its abbreviation, spaces) parses to the digits' value. */
  lemma {:induction false} ParseDigitsWithUnit(d: string, u: string)
    requires IsDigits(d) && Expanded(u) == []
    ensures ParseAmount(d + u) == Some(Value(d))
  {
    ExpandedAfterDigits(d, u);
    assert d + [] == d;
  }

  /** Every number, written in decimal and followed by such a unit, parses
      back to itself. */
  lemma ParseDecimal(n: nat, u: string)
    requires Expanded(u) == []
    ensures ParseAmount(Decimal(n) + u) == Some(n)
  {
    ParseDigitsWithUnit(Decimal(n), u);
    ValueOfDecimal(n);
  }

  /** A digit string followed by one thousand letter `к` (or `К`) parses to a
      thousand times its value. */
  lemma ParseThousands(d: string, k: char)
    requires IsDigits(d) && (k == 'к' || k == 'К')
    ensures ParseAmount(d + [k]) == Some(Value(d) * 1000)
  {
    ExpandedAfterDigits(d, [k]);
    ExpandedThousand();
    assert Lower([k]) == "к";
    LowerAppend(d, [k]);
    ValueTimesThousand(d);
  }

  lemma ExpandedThousand()
    ensures Expanded("к") == "000"
  {
    assert Lower("к") == "к";
    assert ReplaceAll("к", " ", "") == "к";
    assert ReplaceAll("к", "руб", "") == "к";
    assert ReplaceAll("к", "р", "") == "к";
    assert ReplaceAll("к", "к", "000") == "000" + ReplaceAll("", "к", "000");
  }

  lemma LetterVanishes()
    ensures Expanded("р") == []
  {
    assert Lower("р") == "р";
    assert ReplaceAll("р", " ", "") == "р";
    assert ReplaceAll("р", "руб", "") == "р";
    assert ReplaceAll("р", "р", "") == "" + ReplaceAll("", "р", "");
  }

  lemma WordVanishes()
    ensures Expanded("руб") == []
  {
    assert ReplaceAll("руб", " ", "") == "р" + ReplaceAll("уб", " ", "");
    assert ReplaceAll("уб", " ", "") == "у" + ReplaceAll("б", " ", "");
    assert ReplaceAll("руб", "руб", "") == "" + ReplaceAll("", "руб", "");
  }

  lemma SpacedWordVanishes()
    ensures Expanded(" руб") == []
  {
    WordVanishes();
    SpaceIgnored("", "руб");
    assert "" + " " + "руб" == " руб";
    assert "" + "руб" == "руб";
  }

  lemma UpperWordVanishes()
    ensures Expanded("РУБ") == []
  {
    WordVanishes();
    assert Lower("РУБ") == Lower("руб");
  }

  /** The units that normalise to nothing. */
  lemma UnitsVanish()
    ensures Expanded("") == []
    ensures Expanded("р") == []
    ensures Expanded("руб") == []
    ensures Expanded(" руб") == []
    ensures Expanded("РУБ") == []
  {
    LetterVanishes();
    WordVanishes();
    SpacedWordVanishes();
    UpperWordVanishes();
  }

  /** Worked examples from the prompts the bot sends. */
  lemma ExampleThousand()
    ensures ParseAmount("1к") == Some(1000)
  {
    var d, k := "1", 'к';
    ParseThousands(d, k);
    assert d + [k] == "1к";
    assert Value(d) == 1;
  }

  lemma ExampleTwoThousand()
    ensures ParseAmount("2к") == Some(2000)
  {
    var d, k := "2", 'к';
    ParseThousands(d, k);
    assert d + [k] == "2к";
    assert Value(d) == 2;
  }

  lemma ExampleUpperThousand()
    ensures ParseAmount("2К") == Some(2000)
  {
    var d, k := "2", 'К';
    ParseThousands(d, k);
    assert d + [k] == "2К";
    assert Value(d) == 2;
  }

  lemma ExpandedTwoBillion()
    ensures Expanded("2ккк") == "2000000000"
  {
    var d, k := "2", "к";
    ExpandedThousand();
    ExpandedAfterThousand(k);
    ExpandedAfterThousand(k + k);
    ExpandedAfterDigits(d, k + k + k);
    assert d + (k + k + k) == "2ккк";
    assert k + (k + k) == k + k + k;
    assert d + ("000" + ("000" + "000")) == "2000000000";
  }

  lemma ValueTwoBillion()
    ensures IsDigits("2000000000") && Value("2000000000") == 2000000000
  {
    var d := "2";
    assert Value(d) == 2;
    ValueTimesThousand(d);
    ValueTimesThousand(d + "000");
    ValueTimesThousand(d + "000" + "000");
    assert d + "000" + "000" + "000" == "2000000000";
  }

  /** Each `к` is a further factor of a thousand in the value: `2ккк` is
      two billion. */
  lemma ExampleTwoBillion()
    ensures ParseAmount("2ккк") == Some(2000000000)
  {
    ExpandedTwoBillion();
    ValueTwoBillion();
  }

  lemma ExpandedRoubleLetter()
    ensures Expanded("500р") == "500"
  {
    var d, u := "500", "р";
    UnitsVanish();
    ExpandedAfterDigits(d, u);
    assert d + u == "500р";
    assert d + [] == d;
  }

  lemma ExpandedRoubleWord()
    ensures Expanded("500руб") == "500"
  {
    var d, u := "500", "руб";
    UnitsVanish();
    ExpandedAfterDigits(d, u);
    assert d + u == "500руб";
    assert d + [] == d;
  }

  /** Spaces are deleted wherever they stand. */
  lemma SpaceIgnored(a: string, b: string)
    ensures Expanded(a + " " + b) == Expanded(a + b)
  {
    LowerAppend(a + " ", b);
    LowerAppend(a, " ");
    LowerAppend(a, b);
    var la, lb := Lower(a), Lower(b);
    assert Lower(" ") == " ";
    ReplaceCharAppend(la + " ", lb, " ", "");
    ReplaceCharAppend(la, " ", " ", "");
    ReplaceCharAppend(la, lb, " ", "");
    assert ReplaceAll(" ", " ", "") == "" + ReplaceAll("", " ", "");
    assert ReplaceAll(la + " ", " ", "") == ReplaceAll(la, " ", "");
  }

  lemma ExpandedSpaced()
    ensures Expanded("1 000 руб") == "1000"
  {
    SpaceIgnored("1", "000 руб");
    assert "1 000 руб" == "1" + " " + "000 руб";
    assert "1" + "000 руб" == "1000" + " руб";
    ExpandedAfterDigits("1000", " руб");
    UnitsVanish();
  }

  /** A leading `к` is spelled `000` and the rest is normalised on its own. */
  lemma ExpandedAfterThousand(u: string)
    ensures Expanded("к" + u) == "000" + Expanded(u)
  {
    var k := "к";
    LowerAppend(k, u);
    assert Lower(k) == k;
    var lu := Lower(u);
    ReplaceSkipsPrefix(k, lu, " ", "");
    var s1 := ReplaceAll(lu, " ", "");
    ReplaceSkipsPrefix(k, s1, "руб", "");
    var s2 := ReplaceAll(s1, "руб", "");
    ReplaceSkipsPrefix(k, s2, "р", "");
    var n := ReplaceAll(s2, "р", "");
    assert Normalise(k + u) == k + n;
    assert (k + n)[..1] == k;
    assert (k + n)[1..] == n;
    assert ReplaceAll(k + n, "к", "000") == "000" + ReplaceAll(n, "к", "000");
    if 'к' !in n {
      ReplaceSkipsPrefix(n, [], "к", "000");
      assert n + [] == n;
    }
  }

  /** Two digit runs each followed by `к` expand to the two runs each
      followed by `000`. */
  lemma ExpandedThousandTwice(a: string, b: string)
    requires AllDigits(a) && AllDigits(b)
    ensures Expanded(a + "к" + b + "к") == a + "000" + b + "000"
  {
    var k := "к";
    ExpandedThousand();
    ExpandedAfterDigits(b, k);
    ExpandedAfterThousand(b + k);
    assert a + "к" + b + "к" == a + (k + (b + k));
    ExpandedAfterDigits(a, k + (b + k));
  }

  lemma ExpandedRepeatedThousand()
    ensures Expanded("1к1к") == "10001000"
  {
    ExpandedThousandTwice("1", "1");
    assert "1" + "к" + "1" + "к" == "1к1к";
    assert "1" + "000" + "1" + "000" == "10001000";
  }

  lemma ValueRepeated()
    ensures IsDigits("10001000") && Value("10001000") == 10001000
  {
    ValueTimesThousand("1");
    assert "1" + "000" == "1000";
    assert "10001"[..4] == "1000";
    ValueTimesThousand("10001");
    assert "10001" + "000" == "10001000";
  }

  /** The shorthand is a substitution: `1к1к` is `1000` followed by `1000`,
      not a product. */
  lemma ExampleRepeatedThousand()
    ensures ParseAmount("1к1к") == Some(10001000)
  {
    ExpandedRepeatedThousand();
    ValueRepeated();
  }

  lemma ValueLiterals()
    ensures IsDigits("500") && Value("500") == 500
    ensures IsDigits("1000") && Value("1000") == 1000
  {
    assert "500"[..2] == "50" && "50"[..1] == "5";
    assert "1000"[..3] == "100" && "100"[..2] == "10" && "10"[..1] == "1";
  }

  lemma ExampleRubles()
    ensures ParseAmount("500р") == Some(500)
    ensures ParseAmount("500руб") == Some(500)
  {
    ExpandedRoubleLetter();
    ExpandedRoubleWord();
    ValueLiterals();
  }

  lemma ExampleSpaced()
    ensures ParseAmount("1 000 руб") == Some(1000)
  {
    ExpandedSpaced();
    ValueLiterals();
  }

  lemma ExampleRejected()
    ensures ParseAmount("руб") == None
    ensures ParseAmount("") == None
  {
    UnitsVanish();
  }

  /** Only the Cyrillic letter is a thousand: a Latin `k` is rejected. */
  lemma ExampleLatinK()
    ensures ParseAmount("1k") == None
  {
    Survives("1k", 1);
  }
}
