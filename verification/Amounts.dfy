/**
 * Token amounts of bananachat/formatting.py, in exact arithmetic: the two printers and the tolerant parser.
 */
module Amounts {
  import opened Basics
  import opened Texts

  // ----- printing --------------------------------------------------------------------------------

  /** Groups of three digits, from the right. */
  function Group(digits: string, separator: char): string {
    if |digits| <= 3 then digits
    else Group(digits[..|digits| - 3], separator) + [separator] + digits[|digits| - 3..]
  }

  const NARROW_SPACE := '\U{202F}'

  /** `number` of a whole amount; `comma`: the language has a decimal comma. */
  function Number(n: nat, comma: bool): string {
    Group(Decimal(n), if comma then NARROW_SPACE else ',')
  }

  /** So many tenths, to one decimal, without ".0". */
  function Tenths(tenths: nat): string {
    Decimal(tenths / 10) + if tenths % 10 == 0 then "" else "." + Decimal(tenths % 10)
  }

  /** `token_input` of a whole amount. */
  function TokenInput(n: nat): string {
    if n >= 1_000_000 && n % 100_000 == 0 then Tenths(n / 100_000) + "M"
    else if n >= 1_000 && n % 100 == 0 then Tenths(n / 100) + "k"
    else Decimal(n)
  }

  /** The printer asks whether ten times the scaled amount is within 1e-9 of a whole number; for whole amounts that is
      whether it is whole. */
  lemma NearIsWhole(n: nat, unit: nat, whole: int)
    requires unit == 100 || unit == 100_000
    requires -0.000000001 < n as real / unit as real - whole as real < 0.000000001
    ensures n == whole * unit
  {
    var u := unit as real;
    var error := n as real / u - whole as real;
    assert n as real == (whole as real + error) * u;
    assert -0.0001 <= error * u <= 0.0001;
    assert n as real - (whole * unit) as real == error * u;
  }

  // ----- parsing ---------------------------------------------------------------------------------

  /** What is left of a character: white space, underscores and apostrophes are dropped, capitals become small. */
  function Cleaned(s: string): string {
    if s == "" then ""
    else
      var c := s[0];
      (if Space(c) || c == '_' || c == '\'' then "" else [Small(c)]) + Cleaned(s[1..])
  }

  function Small(c: char): char {
    if 'A' <= c <= 'Z' then c + ' ' else if c == '\U{212A}' then 'k' else c
  }

  function NumberLength(s: string): (k: nat)
    ensures k <= |s|
  {
    if s != "" && ('0' <= s[0] <= '9' || s[0] == '.' || s[0] == ',') then 1 + NumberLength(s[1..]) else 0
  }

  /** A suffix's factor; None if it is none of the suffixes. */
  function Factor(suffix: string): Option<real> {
    if suffix == "" then Some(1.0)
    else if suffix == "k" then Some(1_000.0)
    else if suffix == "m" || suffix == "mln" then Some(1_000_000.0)
    else if suffix == "b" || suffix == "mld" then Some(1_000_000_000.0)
    else None
  }

  function Split(s: string, separator: char): (r: seq<string>)
    ensures |r| > 0
    decreases |s|
  {
    var k := Until(s, separator);
    if k == |s| then [s] else [s[..k]] + Split(s[k + 1..], separator)
  }

  function Until(s: string, separator: char): (k: nat)
    ensures k <= |s| && (k < |s| ==> s[k] == separator)
    ensures forall i | 0 <= i < k :: s[i] != separator
  {
    if s == "" || s[0] == separator then 0 else 1 + Until(s[1..], separator)
  }

  function Concat(parts: seq<string>): string {
    if parts == [] then "" else parts[0] + Concat(parts[1..])
  }

  function Without(s: string, c: char): string {
    if s == "" then "" else (if s[0] == c then "" else [s[0]]) + Without(s[1..], c)
  }

  function Replaced(s: string, c: char, other: char): (r: string)
    ensures |r| == |s|
  {
    if s == "" then "" else [if s[0] == c then other else s[0]] + Replaced(s[1..], c, other)
  }

  predicate LastIsPoint(s: string) {
    s != "" && (s[|s| - 1] == '.' || (s[|s| - 1] != ',' && LastIsPoint(s[..|s| - 1])))
  }

  /** `float` of digits and points. */
  function Float(s: string): Option<real> {
    var k := Until(s, '.');
    if k == 0 || !AllDigits(s[..k]) then None
    else if k == |s| then Some(Value(s) as real)
    else if AllDigits(s[k + 1..]) then Some(Value(s[..k]) as real + Value(s[k + 1..]) as real / Power10(|s| - k - 1) as real)
    else None
  }

  /** The digits between the separators, once it is clear which groups and which is decimal; None if it is not. */
  function Normalized(number: string, suffixed: bool): Option<string> {
    if '.' in number && ',' in number then
      if LastIsPoint(number) then Some(Without(number, ',')) else Some(Replaced(Without(number, '.'), ',', '.'))
    else if '.' in number || ',' in number then
      var parts := Split(number, if ',' in number then ',' else '.');
      if Thousands(parts) && (!suffixed || |parts| > 2) then Some(Concat(parts))
      else if |parts| == 2 then Some(parts[0] + "." + parts[1])
      else None
    else Some(number)
  }

  /** `parse_amount`. */
  function ParseAmount(text: string): Option<real> {
    var raw := Cleaned(text);
    var k := NumberLength(raw);
    if k == 0 || !('0' <= raw[0] <= '9') || Factor(raw[k..]).None? then None
    else
      match Normalized(raw[..k], k < |raw|)
      case None => None
      case Some(number) =>
        match Float(number)
        case None => None
        case Some(x) => Some(Times(x, Factor(raw[k..]).value))
  }

  function Times(x: real, factor: real): real {
    x * factor
  }

  // ----- the printers' texts ---------------------------------------------------------------------

  predicate NumberChar(c: char) {
    '0' <= c <= '9' || c == '.' || c == ','
  }

  predicate NumberText(s: string) {
    forall i | 0 <= i < |s| :: NumberChar(s[i])
  }

  lemma {:induction false} CleanedConcat(a: string, b: string)
    ensures Cleaned(a + b) == Cleaned(a) + Cleaned(b)
  {
    hide Space, Small;
    if a == "" {
      assert a + b == b;
    } else {
      assert (a + b)[0] == a[0] && (a + b)[1..] == a[1..] + b;
      CleanedConcat(a[1..], b);
    }
  }

  lemma {:induction false} CleanedNumber(s: string)
    requires NumberText(s)
    ensures Cleaned(s) == s
  {
    if s != "" {
      CleanedNumber(s[1..]);
      assert s == [s[0]] + s[1..];
    }
  }

  lemma {:induction false} NumberLengthIs(a: string, b: string)
    requires NumberText(a) && (b == "" || !NumberChar(b[0]))
    ensures NumberLength(a + b) == |a|
  {
    if a == "" {
      assert a + b == b;
    } else {
      assert (a + b)[0] == a[0] && (a + b)[1..] == a[1..] + b;
      NumberLengthIs(a[1..], b);
    }
  }

  lemma {:induction false} UntilIs(a: string, separator: char, b: string)
    requires separator !in a
    ensures Until(a + [separator] + b, separator) == |a|
    ensures Until(a, separator) == |a|
  {
    var s := a + [separator] + b;
    if a != "" {
      assert s[1..] == a[1..] + [separator] + b;
      UntilIs(a[1..], separator, b);
    }
  }

  lemma SplitNothing(s: string, separator: char)
    requires separator !in s
    ensures Split(s, separator) == [s] && Concat([s]) == s
  {
    UntilIs(s, separator, "");
    assert Concat([s]) == s + Concat([]);
  }

  lemma SplitsAt(head: string, separator: char, tail: string)
    requires separator !in head
    ensures Split(head + [separator] + tail, separator) == [head] + Split(tail, separator)
  {
    var s := head + [separator] + tail;
    UntilIs(head, separator, tail);
    assert s[..|head|] == head && s[|head| + 1..] == tail;
  }

  lemma {:induction false} SplitAppends(a: string, b: string, separator: char)
    requires separator !in b
    ensures Split(a + [separator] + b, separator) == Split(a, separator) + [b]
    decreases |a|
  {
    hide Split;
    var k := Until(a, separator);
    if k == |a| {
      SplitsAt(a, separator, b);
      SplitNothing(a, separator);
      SplitNothing(b, separator);
    } else {
      var head, rest := a[..k], a[k + 1..];
      assert a == head + [separator] + rest;
      assert a + [separator] + b == head + [separator] + (rest + [separator] + b);
      SplitsAt(head, separator, rest);
      SplitsAt(head, separator, rest + [separator] + b);
      SplitAppends(rest, b, separator);
    }
  }

  lemma {:induction false} ConcatAppends(parts: seq<string>, last: string)
    ensures Concat(parts + [last]) == Concat(parts) + last
  {
    if parts == [] {
      assert parts + [last] == [last];
      assert Concat([last]) == last + Concat([]);
    } else {
      assert (parts + [last])[1..] == parts[1..] + [last];
      ConcatAppends(parts[1..], last);
    }
  }

  /** Parts as `Normalized` takes them for groups of thousands. */
  predicate Thousands(parts: seq<string>) {
    |parts| > 0 && 1 <= |parts[0]| <= 3 && forall i | 0 < i < |parts| :: |parts[i]| == 3
  }

  /** Groups of digits split back into groups of three, the first of one to three, that join to the digits. */
  lemma {:induction false} GroupSplits(digits: string)
    requires AllDigits(digits) && digits != ""
    ensures var parts := Split(Group(digits, ','), ',');
      Thousands(parts) && Concat(parts) == digits
    decreases |digits|
  {
    hide Split, Concat;
    if |digits| <= 3 {
      SplitNothing(digits, ',');
    } else {
      var front, last := digits[..|digits| - 3], digits[|digits| - 3..];
      GroupSplits(front);
      SplitAppends(Group(front, ','), last, ',');
      ConcatAppends(Split(Group(front, ','), ','), last);
      assert digits == front + last;
    }
  }

  lemma {:induction false} GroupIsNumber(digits: string, separator: char)
    requires AllDigits(digits) && digits != "" && (separator == ',' || separator == '.')
    ensures var g := Group(digits, separator);
      && NumberText(g) && (if separator == ',' then '.' else ',') !in g && (|digits| > 3 <==> separator in g)
      && g != "" && '0' <= g[0] <= '9'
    decreases |digits|
  {
    if |digits| > 3 {
      var front, last := digits[..|digits| - 3], digits[|digits| - 3..];
      GroupIsNumber(front, separator);
      var g := Group(digits, separator);
      assert g == Group(front, separator) + [separator] + last;
      assert g[|g| - 4] == separator;
    }
  }

  lemma NarrowSpaceCleans()
    ensures Cleaned([NARROW_SPACE]) == ""
  {
    assert [NARROW_SPACE][1..] == "";
  }

  lemma {:induction false} NarrowGroupCleans(digits: string)
    requires AllDigits(digits)
    ensures Cleaned(Group(digits, NARROW_SPACE)) == digits
    decreases |digits|
  {
    hide Cleaned;
    if |digits| <= 3 {
      CleanedNumber(digits);
    } else {
      var front, last := digits[..|digits| - 3], digits[|digits| - 3..];
      NarrowGroupCleans(front);
      NarrowSpaceCleans();
      CleanedNumber(last);
      CleanedConcat(Group(front, NARROW_SPACE) + [NARROW_SPACE], last);
      CleanedConcat(Group(front, NARROW_SPACE), [NARROW_SPACE]);
      assert digits == front + last;
    }
  }

  // ----- round trips -----------------------------------------------------------------------------

  /** A cleaned text of a number and a suffix. */
  lemma ParsesAs(text: string, number: string, suffix: string)
    requires Cleaned(text) == number + suffix && number != "" && '0' <= number[0] <= '9' && NumberText(number)
    requires (suffix == "" || !NumberChar(suffix[0])) && Factor(suffix).Some?
    ensures var digits := Normalized(number, suffix != "");
      ParseAmount(text) ==
        if digits.None? || Float(digits.value).None? then None else Some(Times(Float(digits.value).value, Factor(suffix).value))
  {
    hide Cleaned;
    NumberLengthIs(number, suffix);
    var raw := Cleaned(text);
    assert raw == number + suffix && raw[0] == number[0];
    assert raw[..|number|] == number && raw[|number|..] == suffix;
    assert NumberLength(raw) == |number|;
    assert (suffix != "") == (|number| < |raw|);
  }

  lemma PlainFloat(digits: string)
    requires AllDigits(digits) && digits != ""
    ensures Float(digits) == Some(Value(digits) as real) && Normalized(digits, false) == Some(digits)
    ensures Normalized(digits, true) == Some(digits) && NumberText(digits)
  {
    UntilIs(digits, '.', "");
    assert digits[..|digits|] == digits;
  }

  /** An exact number parses to itself. */
  lemma DecimalParses(n: nat, text: string)
    requires Cleaned(text) == Decimal(n)
    ensures ParseAmount(text) == Some(n as real)
  {
    PlainFloat(Decimal(n));
    DecimalValue(n);
    assert Decimal(n) + "" == Decimal(n);
    ParsesAs(text, Decimal(n), "");
  }

  /** What a page shows of a whole amount parses to that amount, in languages with a decimal point and in those with a
      decimal comma. */
  lemma NumberRoundTrip(n: nat, comma: bool)
    ensures ParseAmount(Number(n, comma)) == Some(n as real)
  {
    hide Cleaned, Decimal, Float, ParseAmount, Value, Split, Concat;
    var digits := Decimal(n);
    if comma {
      NarrowGroupCleans(digits);
      DecimalParses(n, Number(n, true));
    } else {
      var text := Group(digits, ',');
      GroupIsNumber(digits, ',');
      GroupSplits(digits);
      CleanedNumber(text);
      PlainFloat(digits);
      DecimalValue(n);
      assert text + "" == text;
      ParsesAs(text, text, "");
    }
  }

  lemma PointNormalizes(a: string, b: string)
    requires AllDigits(a) && a != "" && AllDigits(b) && |b| == 1
    ensures Normalized(a + "." + b, true) == Some(a + "." + b)
    ensures NumberText(a + "." + b) && (a + "." + b)[0] == a[0]
  {
    hide Concat;
    var number := a + "." + b;
    SplitAppends(a, b, '.');
    SplitNothing(a, '.');
    assert number[|a|] == '.';
  }

  lemma PointFloats(a: string, b: string)
    requires AllDigits(a) && a != "" && AllDigits(b) && |b| == 1
    ensures Float(a + "." + b) == Some(Value(a) as real + Value(b) as real / 10.0)
  {
    hide Value, Power10;
    var number := a + "." + b;
    UntilIs(a, '.', b);
    FloatIs(number, a, b);
    TenIs();
  }

  lemma FloatIs(number: string, a: string, b: string)
    requires AllDigits(a) && a != "" && AllDigits(b) && number == a + "." + b && Until(number, '.') == |a|
    ensures Float(number) == Some(Value(a) as real + Value(b) as real / Power10(|b|) as real)
  {
    hide Value, Power10, Until;
    assert number[..|a|] == a && number[|a| + 1..] == b;
  }

  lemma TenIs()
    ensures Power10(1) == 10
  {
    assert Power10(1) == 10 * Power10(0);
  }

  lemma TenthsAre(tenths: nat)
    ensures var s := Tenths(tenths);
      && NumberText(s) && s != "" && '0' <= s[0] <= '9' && Normalized(s, true) == Some(s)
      && Float(s) == Some(tenths as real / 10.0)
  {
    hide Float, Normalized, Value;
    var whole, tenth := tenths / 10, tenths % 10;
    DecimalValue(whole);
    DecimalValue(tenth);
    if tenth == 0 {
      PlainFloat(Decimal(whole));
      assert Decimal(whole) + "" == Decimal(whole);
      assert tenths as real / 10.0 == whole as real;
    } else {
      PointNormalizes(Decimal(whole), Decimal(tenth));
      PointFloats(Decimal(whole), Decimal(tenth));
      assert Decimal(whole) + ("." + Decimal(tenth)) == Decimal(whole) + "." + Decimal(tenth);
      assert tenths as real / 10.0 == whole as real + tenth as real / 10.0;
    }
  }

  lemma UnitsParse(tenths: nat, text: string, letter: char, suffix: string, unit: nat)
    requires (letter == 'k' && suffix == "k" && unit == 100) || (letter == 'M' && suffix == "m" && unit == 100_000)
    requires text == Tenths(tenths) + [letter]
    ensures ParseAmount(text) == Some((tenths * unit) as real)
  {
    hide Tenths, Float, Normalized, Cleaned, NumberLength, ParseAmount;
    TenthsAre(tenths);
    CleanedConcat(Tenths(tenths), [letter]);
    CleanedNumber(Tenths(tenths));
    LetterCleans(letter);
    ParsesAs(text, Tenths(tenths), suffix);
  }

  lemma LetterCleans(letter: char)
    requires letter == 'k' || letter == 'M'
    ensures Cleaned([letter]) == if letter == 'k' then "k" else "m"
  {
    assert [letter][1..] == "";
  }

  /** What a form field shows of a whole amount parses to that amount. */
  lemma TokenInputRoundTrip(n: nat)
    ensures ParseAmount(TokenInput(n)) == Some(n as real)
  {
    hide Tenths, ParseAmount, Cleaned, Decimal;
    if n >= 1_000_000 && n % 100_000 == 0 {
      UnitsParse(n / 100_000, TokenInput(n), 'M', "m", 100_000);
    } else if n >= 1_000 && n % 100 == 0 {
      UnitsParse(n / 100, TokenInput(n), 'k', "k", 100);
    } else {
      CleanedNumber(Decimal(n));
      DecimalParses(n, Decimal(n));
    }
  }

  /** Whole thousands and millions are shown with their letter, with at most one decimal; what has more digits is shown in
      full. */
  lemma TokenInputForms(n: nat)
    ensures 1_000 <= n < 1_000_000 && n % 1_000 == 0 ==> TokenInput(n) == Decimal(n / 1_000) + "k"
    ensures 1_000_000 <= n && n % 1_000_000 == 0 ==> TokenInput(n) == Decimal(n / 1_000_000) + "M"
    ensures 1_000 <= n < 1_000_000 && n % 1_000 != 0 && n % 100 == 0 ==>
      TokenInput(n) == Decimal(n / 1_000) + "." + Decimal(n / 100 % 10) + "k"
    ensures 1_000_000 <= n && n % 1_000_000 != 0 && n % 100_000 == 0 ==>
      TokenInput(n) == Decimal(n / 1_000_000) + "." + Decimal(n / 100_000 % 10) + "M"
    ensures n < 1_000 || n % 100 != 0 ==> TokenInput(n) == Decimal(n)
  {
    hide Decimal;
    Quotients(n, 100);
    Quotients(n, 100_000);
    assert Decimal(n / 1_000) + "" == Decimal(n / 1_000) && Decimal(n / 1_000_000) + "" == Decimal(n / 1_000_000);
    assert Decimal(n / 1_000) + ("." + Decimal(n / 100 % 10)) == Decimal(n / 1_000) + "." + Decimal(n / 100 % 10);
    assert Decimal(n / 1_000_000) + ("." + Decimal(n / 100_000 % 10)) == Decimal(n / 1_000_000) + "." + Decimal(n / 100_000 % 10);
  }

  lemma Quotients(n: nat, unit: nat)
    requires unit == 100 || unit == 100_000
    ensures n / unit / 10 == n / (10 * unit)
    ensures n % (10 * unit) == 0 <==> n % unit == 0 && n / unit % 10 == 0
  {
  }

  // ----- what else is typed ----------------------------------------------------------------------

  lemma {:induction false} LastPoint(x: string, c: char, b: string)
    requires AllDigits(b) && (c == '.' || c == ',')
    ensures LastIsPoint(x + [c] + b) <==> c == '.'
    decreases |b|
  {
    var s := x + [c] + b;
    if b != "" {
      assert s[..|s| - 1] == x + [c] + b[..|b| - 1];
      LastPoint(x, c, b[..|b| - 1]);
    }
  }

  lemma {:induction false} WithoutConcat(a: string, b: string, c: char)
    ensures Without(a + b, c) == Without(a, c) + Without(b, c)
  {
    if a == "" {
      assert a + b == b;
    } else {
      assert (a + b)[0] == a[0] && (a + b)[1..] == a[1..] + b;
      WithoutConcat(a[1..], b, c);
    }
  }

  lemma {:induction false} WithoutNothing(a: string, c: char)
    requires c !in a
    ensures Without(a, c) == a
  {
    if a != "" {
      WithoutNothing(a[1..], c);
      assert a == [a[0]] + a[1..];
    }
  }

  lemma {:induction false} WithoutGroups(digits: string, separator: char)
    requires AllDigits(digits) && (separator == ',' || separator == '.')
    ensures Without(Group(digits, separator), separator) == digits
    decreases |digits|
  {
    hide Without;
    if |digits| <= 3 {
      WithoutNothing(digits, separator);
    } else {
      var front, last := digits[..|digits| - 3], digits[|digits| - 3..];
      WithoutGroups(front, separator);
      WithoutNothing(last, separator);
      WithoutConcat(Group(front, separator) + [separator], last, separator);
      WithoutConcat(Group(front, separator), [separator], separator);
      WithoutItself(separator);
      assert digits == front + last;
    }
  }

  lemma WithoutItself(c: char)
    ensures Without([c], c) == ""
  {
    assert [c][1..] == "";
  }

  lemma {:induction false} ReplacedIs(a: string, c: char, b: string, other: char)
    requires c !in a && c !in b
    ensures Replaced(a + [c] + b, c, other) == a + [other] + b
  {
    var s := a + [c] + b;
    if a == "" {
      assert s[1..] == b;
      ReplacedNothing(b, c, other);
    } else {
      assert s[1..] == a[1..] + [c] + b;
      ReplacedIs(a[1..], c, b, other);
    }
  }

  lemma {:induction false} ReplacedNothing(a: string, c: char, other: char)
    requires c !in a
    ensures Replaced(a, c, other) == a
  {
    if a != "" {
      ReplacedNothing(a[1..], c, other);
    }
  }

  /** Grouped digits, a decimal separator, which is the other one, and decimals. */
  function Mixed(digits: string, decimals: string, point: char): string {
    Group(digits, if point == '.' then ',' else '.') + [point] + decimals
  }

  lemma MixedNormalizes(digits: string, decimals: string, point: char, suffixed: bool)
    requires AllDigits(digits) && |digits| > 3 && AllDigits(decimals) && (point == '.' || point == ',')
    ensures var number := Mixed(digits, decimals, point);
      && Normalized(number, suffixed) == Some(digits + "." + decimals) && NumberText(number) && number != "" && '0' <= number[0] <= '9'
  {
    hide Group, Without, Replaced, LastIsPoint, Split, Thousands, Concat;
    var separator := if point == '.' then ',' else '.';
    var group := Group(digits, separator);
    var number := Mixed(digits, decimals, point);
    GroupIsNumber(digits, separator);
    LastPoint(group, point, decimals);
    assert number[|group|] == point;
    var k :| 0 <= k < |group| && group[k] == separator;
    assert number[k] == separator;
    WithoutConcat(group, [point] + decimals, separator);
    assert group + ([point] + decimals) == number;
    WithoutNothing([point] + decimals, separator);
    WithoutGroups(digits, separator);
    assert digits + ([point] + decimals) == digits + [point] + decimals;
    if point == ',' {
      ReplacedIs(digits, ',', decimals, '.');
    }
  }

  /** The value of digits before and behind a decimal separator. */
  function Fraction(whole: string, decimals: string): real
    requires AllDigits(whole) && AllDigits(decimals)
  {
    Value(whole) as real + Value(decimals) as real / Power10(|decimals|) as real
  }

  lemma FractionFloats(a: string, b: string)
    requires AllDigits(a) && a != "" && AllDigits(b)
    ensures Float(a + "." + b) == Some(Fraction(a, b))
  {
    hide Value, Power10;
    UntilIs(a, '.', b);
    FloatIs(a + "." + b, a, b);
  }

  /** The suffixes, as they are typed, in either case, and what they multiply by. */
  predicate Multiplies(suffix: string, factor: real) {
    || (suffix == "" && factor == 1.0)
    || ((suffix == "k" || suffix == "K") && factor == 1_000.0)
    || ((suffix == "m" || suffix == "M" || suffix == "mln" || suffix == "Mln") && factor == 1_000_000.0)
    || ((suffix == "b" || suffix == "B" || suffix == "mld" || suffix == "Mld") && factor == 1_000_000_000.0)
  }

  lemma SuffixCleans(suffix: string, factor: real)
    requires Multiplies(suffix, factor)
    ensures var small := Cleaned(suffix);
      && Factor(small) == Some(factor) && (small == "" <==> suffix == "") && (small == "" || !NumberChar(small[0]))
  {
    if suffix != "" {
      var rest := suffix[1..];
      if |suffix| == 3 {
        assert suffix == [suffix[0], 'l', suffix[2]];
        CleanedThree(suffix[0], 'l', suffix[2]);
      } else {
        CleanedOne(suffix[0]);
        assert suffix == [suffix[0]];
      }
    }
  }

  lemma CleanedOne(a: char)
    requires 'A' <= a <= 'Z' || 'a' <= a <= 'z'
    ensures Cleaned([a]) == [Small(a)]
  {
    assert [a][1..] == "";
  }

  lemma CleanedThree(a: char, b: char, c: char)
    requires 'A' <= a <= 'Z' || 'a' <= a <= 'z'
    requires 'a' <= b <= 'z' && 'a' <= c <= 'z'
    ensures Cleaned([a, b, c]) == [Small(a), Small(b), Small(c)]
  {
    hide Cleaned;
    assert [a, b, c] == [a] + ([b] + [c]);
    CleanedConcat([a], [b] + [c]);
    CleanedConcat([b], [c]);
    CleanedOne(a);
    CleanedOne(b);
    CleanedOne(c);
  }

  /** A number and a suffix as they are typed. */
  lemma TypedParses(number: string, suffix: string, factor: real, digits: string, value: real)
    requires NumberText(number) && number != "" && '0' <= number[0] <= '9' && Multiplies(suffix, factor)
    requires Normalized(number, suffix != "") == Some(digits) && Float(digits) == Some(value)
    ensures ParseAmount(number + suffix) == Some(Times(value, factor))
  {
    hide Times, Cleaned, Float, Normalized, ParseAmount, Factor, Multiplies;
    SuffixCleans(suffix, factor);
    CleanedConcat(number, suffix);
    CleanedNumber(number);
    ParsesAs(number + suffix, number, Cleaned(suffix));
  }

  /** With both separators the last one is the decimal one, and the other groups: "1,234.5" and "1.234,5" are the same. */
  lemma MixedParses(digits: string, decimals: string, point: char, suffix: string, factor: real)
    requires AllDigits(digits) && |digits| > 3 && AllDigits(decimals) && (point == '.' || point == ',') && Multiplies(suffix, factor)
    ensures ParseAmount(Mixed(digits, decimals, point) + suffix) == Some(Times(Fraction(digits, decimals), factor))
  {
    hide Times, ParseAmount, Float, Normalized, Fraction, Multiplies, Mixed;
    MixedNormalizes(digits, decimals, point, suffix != "");
    FractionFloats(digits, decimals);
    TypedParses(Mixed(digits, decimals, point), suffix, factor, digits + "." + decimals, Fraction(digits, decimals));
  }

  /** A number without separators, with any suffix. */
  lemma SuffixParses(n: nat, suffix: string, factor: real)
    requires Multiplies(suffix, factor)
    ensures ParseAmount(Decimal(n) + suffix) == Some(Times(n as real, factor))
  {
    hide Times, ParseAmount, Float, Normalized, Multiplies;
    PlainFloat(Decimal(n));
    DecimalValue(n);
    TypedParses(Decimal(n), suffix, factor, Decimal(n), n as real);
  }

  lemma NoSuffix(x: real, factor: real)
    requires Multiplies("", factor)
    ensures Times(x, factor) == x
  {
  }

  lemma OneSeparator(a: string, point: char, b: string, suffixed: bool)
    requires AllDigits(a) && a != "" && AllDigits(b) && (point == '.' || point == ',')
    ensures var number := a + [point] + b;
      && NumberText(number) && number != "" && '0' <= number[0] <= '9'
      && Normalized(number, suffixed) == Some(if |b| == 3 && |a| <= 3 && !suffixed then a + b else a + "." + b)
  {
    hide Split, Concat, LastIsPoint;
    var number := a + [point] + b;
    SplitAppends(a, b, point);
    SplitNothing(a, point);
    ConcatTwo(a, b);
    assert number[|a|] == point && [a] + [b] == [a, b];
    assert (if point == '.' then ',' else '.') !in number && point in number;
    assert Split(number, point) == [a, b] && [a, b][1] == b;
    assert (if ',' in number then ',' else '.') == point;
    assert Thousands([a, b]) <==> |a| <= 3 && |b| == 3;
  }

  lemma ConcatTwo(a: string, b: string)
    ensures Concat([a, b]) == a + b
  {
    assert [a, b][1..] == [b] && [b][1..] == [];
    assert Concat([b]) == b + "" == b;
  }

  /** With one separator: exactly three digits behind it, one to three before it and no suffix make thousands; anything
      else makes decimals, whichever separator it is. */
  lemma OneSeparatorParses(a: string, point: char, b: string, suffix: string, factor: real)
    requires AllDigits(a) && a != "" && AllDigits(b) && (point == '.' || point == ',') && Multiplies(suffix, factor)
    ensures ParseAmount(a + [point] + b + suffix) == Some(
      if |b| == 3 && |a| <= 3 && suffix == "" then Value(a + b) as real else Times(Fraction(a, b), factor))
  {
    hide Times, ParseAmount, Float, Normalized, Fraction, Value;
    OneSeparator(a, point, b, suffix != "");
    if |b| == 3 && |a| <= 3 && suffix == "" {
      PlainFloat(a + b);
      TypedParses(a + [point] + b, suffix, factor, a + b, Value(a + b) as real);
      NoSuffix(Value(a + b) as real, factor);
    } else {
      FractionFloats(a, b);
      TypedParses(a + [point] + b, suffix, factor, a + "." + b, Fraction(a, b));
    }
  }
}
