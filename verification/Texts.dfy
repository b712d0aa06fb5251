/** Numbers as text, and the order of text. */
module Texts {
  // ----- digits ----------------------------------------------------------------------------------

  predicate AllDigits(s: string) {
    forall i | 0 <= i < |s| :: '0' <= s[i] <= '9'
  }

  function Value(s: string): nat
    requires AllDigits(s)
  {
    if s == "" then 0 else Value(s[..|s| - 1]) * 10 + (s[|s| - 1] - '0') as nat
  }

  function Power10(w: nat): (r: nat)
    ensures r >= 1
  {
    if w == 0 then 1 else 10 * Power10(w - 1)
  }

  /** `n` in `w` digits. */
  function Digits(n: nat, w: nat): (r: string)
    ensures |r| == w && AllDigits(r)
  {
    if w == 0 then "" else Digits(n / 10, w - 1) + ['0' + (n % 10) as char]
  }

  lemma {:induction false} ValueOfDigits(n: nat, w: nat)
    requires n < Power10(w)
    ensures Value(Digits(n, w)) == n
  {
    if w > 0 {
      ValueOfDigits(n / 10, w - 1);
      var r := Digits(n, w);
      assert r[..|r| - 1] == Digits(n / 10, w - 1);
    }
  }

  /** A number's digits. */
  function Decimal(n: nat): (r: string)
    ensures r != "" && AllDigits(r)
  {
    if n < 10 then ['0' + n as char] else Decimal(n / 10) + ['0' + (n % 10) as char]
  }

  lemma {:induction false} DecimalValue(n: nat)
    ensures Value(Decimal(n)) == n
  {
    if n >= 10 {
      DecimalValue(n / 10);
      var r := Decimal(n);
      assert r[..|r| - 1] == Decimal(n / 10);
    } else {
      var r := Decimal(n);
      assert r[..0] == "" && Value("") == 0;
    }
  }

  lemma {:induction false} DecimalLength(n: nat, w: nat)
    requires w > 0 && n < Power10(w)
    ensures |Decimal(n)| <= w
  {
    if n >= 10 {
      DecimalLength(n / 10, w - 1);
    }
  }

  // ----- characters ------------------------------------------------------------------------------

  predicate Hex(s: string) {
    forall i | 0 <= i < |s| :: '0' <= s[i] <= '9' || 'a' <= s[i] <= 'f'
  }

  /** `split("/")`. */
  function Split(s: string): (r: seq<string>)
    ensures r != [] && forall part | part in r :: '/' !in part
  {
    if s == "" then [""]
    else
      var rest := Split(s[1..]);
      if s[0] == '/' then [""] + rest else [[s[0]] + rest[0]] + rest[1..]
  }

  lemma {:induction false} SplitNothing(s: string)
    requires '/' !in s
    ensures Split(s) == [s]
  {
    if s != "" {
      assert s == [s[0]] + s[1..];
      SplitNothing(s[1..]);
    }
  }

  /** A slash separates. */
  lemma {:induction false} SplitConcat(x: string, y: string)
    ensures Split(x + "/" + y) == Split(x) + Split(y)
  {
    hide WithHead;
    var s := x + "/" + y;
    if x == "" {
      assert s[0] == '/' && s[1..] == y;
    } else {
      assert s[0] == x[0] && s[1..] == x[1..] + "/" + y;
      SplitConcat(x[1..], y);
      SplitHead(x[0], x[1..] + "/" + y);
      SplitHead(x[0], x[1..]);
      assert [x[0]] + (x[1..] + "/" + y) == s && [x[0]] + x[1..] == x;
      HeadJoins(x[0], Split(x[1..]), Split(y));
    }
  }

  /** One more character before a split text. */
  function WithHead(c: char, parts: seq<string>): seq<string>
    requires parts != []
  {
    if c == '/' then [""] + parts else [[c] + parts[0]] + parts[1..]
  }

  lemma SplitHead(c: char, s: string)
    ensures Split([c] + s) == WithHead(c, Split(s))
  {
    assert ([c] + s)[1..] == s;
  }

  lemma HeadJoins(c: char, a: seq<string>, b: seq<string>)
    requires a != []
    ensures WithHead(c, a + b) == WithHead(c, a) + b
  {
    assert (a + b)[0] == a[0] && (a + b)[1..] == a[1..] + b;
  }

  /** White space, as Python's str.strip and str.split see it. */
  predicate Space(c: char) {
    '\U{09}' <= c <= '\U{0D}' || '\U{1C}' <= c <= '\U{20}' || c == '\U{85}' || c == '\U{A0}' || c == '\U{1680}'
    || '\U{2000}' <= c <= '\U{200A}' || c == '\U{2028}' || c == '\U{2029}' || c == '\U{202F}' || c == '\U{205F}' || c == '\U{3000}'
  }

  function StripLeft(s: string): (r: string)
    ensures |r| <= |s| && r == s[|s| - |r|..]
    ensures r != "" ==> !Space(r[0])
  {
    if s != "" && Space(s[0]) then StripLeft(s[1..]) else s
  }

  function StripRight(s: string): (r: string)
    ensures |r| <= |s| && r == s[..|r|]
    ensures r != "" ==> !Space(r[|r| - 1])
  {
    if s != "" && Space(s[|s| - 1]) then StripRight(s[..|s| - 1]) else s
  }

  /** `strip()`. */
  function Strip(s: string): string {
    StripRight(StripLeft(s))
  }

  // ----- order -----------------------------------------------------------------------------------

  /** Python's order of strings. */
  predicate TextBefore(a: string, b: string) {
    b != "" && (a == "" || a[0] < b[0] || (a[0] == b[0] && TextBefore(a[1..], b[1..])))
  }

  lemma {:induction false} TextSplits(a: string, b: string, k: nat)
    requires |a| == |b| && k <= |a|
    ensures TextBefore(a, b) <==> TextBefore(a[..k], b[..k]) || (a[..k] == b[..k] && TextBefore(a[k..], b[k..]))
  {
    if k > 0 {
      TextSplits(a[1..], b[1..], k - 1);
      assert a[..k][1..] == a[1..][..k - 1] && b[..k][1..] == b[1..][..k - 1];
      assert a[1..][k - 1..] == a[k..] && b[1..][k - 1..] == b[k..];
      assert a[..k] == [a[0]] + a[1..][..k - 1] && b[..k] == [b[0]] + b[1..][..k - 1];
    } else {
      assert a[0..] == a && b[0..] == b;
    }
  }

  /** Fixed-width digits: the order of the text is the order of the numbers. */
  lemma {:induction false} DigitsOrder(a: string, b: string)
    requires |a| == |b| && AllDigits(a) && AllDigits(b)
    ensures TextBefore(a, b) <==> Value(a) < Value(b)
    ensures a == b <==> Value(a) == Value(b)
  {
    if a != "" {
      var n := |a| - 1;
      DigitsOrder(a[..n], b[..n]);
      LastDiffers(a, b);
      LastDecides(a, b);
    }
  }

  lemma OneCharacter(x: char, y: char)
    ensures TextBefore([x], [y]) <==> x < y
  {
    assert [x][1..] == "" && [y][1..] == "";
  }

  lemma LastDiffers(a: string, b: string)
    requires |a| == |b| > 0
    ensures a == b <==> a[..|a| - 1] == b[..|a| - 1] && a[|a| - 1] == b[|a| - 1]
  {
    var n := |a| - 1;
    assert a == a[..n] + [a[n]];
    assert b == b[..n] + [b[n]];
  }

  lemma LastDecides(a: string, b: string)
    requires |a| == |b| > 0
    ensures TextBefore(a, b) <==>
      TextBefore(a[..|a| - 1], b[..|a| - 1]) || (a[..|a| - 1] == b[..|a| - 1] && a[|a| - 1] < b[|a| - 1])
  {
    hide TextBefore;
    var n := |a| - 1;
    var x, y := a[n..], b[n..];
    TextSplits(a, b, n);
    assert x == [a[n]] && y == [b[n]];
    OneCharacter(a[n], b[n]);
  }

  lemma {:induction false} TextOrder(a: string, b: string)
    ensures a == b || TextBefore(a, b) || TextBefore(b, a)
  {
    if a != "" && b != "" && a[0] == b[0] {
      TextOrder(a[1..], b[1..]);
      assert a == [a[0]] + a[1..] && b == [b[0]] + b[1..];
    }
  }

  lemma {:induction false} TextOrderChains(a: string, b: string, c: string)
    requires TextBefore(a, b) && TextBefore(b, c)
    ensures TextBefore(a, c)
  {
    if a != "" && a[0] == b[0] == c[0] {
      TextOrderChains(a[1..], b[1..], c[1..]);
    }
  }
}
