// Amounts arrive as decimal strings and leave as centimes: the numerator of 100 times the rational.
module Amounts {
  import opened Base
  import opened Store

  // ----- Divisibility -----

  ghost predicate Divides(a: int, b: int) {
    exists k: int :: b == a * k
  }

  function Gcd(a: nat, b: nat): (g: nat)
    requires a > 0 || b > 0
    ensures g > 0
    decreases b
  {
    if b == 0 then a else Gcd(b, a % b)
  }

  function Abs(x: int): nat {
    if x < 0 then -x else x
  }

  lemma DividesCombination(g: int, x: int, y: int, k: int)
    requires Divides(g, x) && Divides(g, y)
    ensures Divides(g, k * x + y)
  {
    var i, j :| x == g * i && y == g * j;
    assert k * x + y == g * (k * i + j);
  }

  /** The greatest common divisor divides both. */
  lemma {:induction false} GcdDivides(a: nat, b: nat)
    requires a > 0 || b > 0
    ensures Divides(Gcd(a, b), a) && Divides(Gcd(a, b), b)
    decreases b
  {
    if b == 0 {
      assert a == a * 1;
      assert 0 == a * 0;
    } else {
      GcdDivides(b, a % b);
      DividesCombination(Gcd(b, a % b), b, a % b, a / b);
      assert a == a / b * b + a % b;
    }
  }

  /** Every common divisor divides it. */
  lemma {:induction false} GcdIsGreatest(a: nat, b: nat, c: int)
    requires (a > 0 || b > 0) && Divides(c, a) && Divides(c, b)
    ensures Divides(c, Gcd(a, b))
    decreases b
  {
    if b > 0 {
      DividesCombination(c, b, a, -(a / b));
      assert a % b == -(a / b) * b + a;
      GcdIsGreatest(b, a % b, c);
    }
  }

  lemma AtLeast(g: int, k: int)
    requires g > 0 && k >= 1
    ensures g * k >= g
  {
    assert g * k == g * (k - 1) + g;
  }

  lemma OnlyOne(c: nat, g: int)
    requires g > 0 && Divides(c * g, g)
    ensures c == 1
  {
    var k :| g == c * g * k;
    assert g == g * (c * k) && c * k == 1 by {
      assert c * g * k == g * (c * k);
      CancelLeft(g, c * k, 1);
    }
    if c >= 2 {
      if k >= 1 { AtLeast(c, k); } else { NotPositive(c, k); }
    }
  }

  lemma NotPositive(c: nat, k: int)
    requires k <= 0
    ensures c * k <= 0
  {
  }

  lemma CancelLeft(g: int, x: int, y: int)
    requires g > 0 && g * x == g * y
    ensures x == y
  {
    if x > y {
      AtLeast(g, x - y);
    } else if y > x {
      AtLeast(g, y - x);
    }
    assert g * (x - y) == g * x - g * y && g * (y - x) == g * y - g * x;
  }

  // ----- big.Rat -----

  datatype Ratio = Ratio(num: int, den: int)

  type Rational = q: Ratio | q.den > 0 witness Ratio(0, 1)

  /**
   * What big.Rat.SetString makes of a text. It also reads fractions, exponents and other bases, so
   * it is a parameter here; all that is asked of it, and only where it matters, is ReadsDecimals.
   */
  type Parser = string -> Option<Rational>

  /** n/d with the common factor taken out, as big.Rat keeps it. */
  function Lowest(n: int, d: int): Ratio
    requires d > 0
  {
    var g := Gcd(Abs(n), d);
    Ratio(n / g, d / g)
  }

  lemma AbsDivides(g: int, n: int)
    requires Divides(g, Abs(n))
    ensures Divides(g, n)
  {
    var k :| Abs(n) == g * k;
    if n < 0 { assert n == g * (-k); }
  }

  lemma ExactQuotient(n: int, g: int)
    requires g > 0 && Divides(g, n)
    ensures n == g * (n / g)
  {
    var k :| n == g * k;
    assert n / g == k by { QuotientIs(n, g, k); }
  }

  lemma QuotientIs(n: int, g: int, k: int)
    requires g > 0 && n == g * k
    ensures n / g == k
  {
    var q, r := n / g, n % g;
    assert n == g * q + r && 0 <= r < g;
    assert g * (k - q) == g * k - g * q == r;
    assert g * (q - k) == -r;
    if k > q {
      AtLeast(g, k - q);
    } else if k < q {
      AtLeast(g, q - k);
    }
  }

  lemma Regroup(a: int, b: int, c: int)
    ensures a * (b * c) == (a * b) * c == b * (a * c)
  {
  }

  /** A divisor of the reduced number times the factor taken out divides the number. */
  lemma Unreduced(n: int, g: int, x: int, c: int)
    requires n == g * x && Divides(c, x)
    ensures Divides(c * g, Abs(n))
  {
    var i :| x == c * i;
    Regroup(g, c, i);
    assert n == (c * g) * i;
    assert -n == (c * g) * (-i);
    assert Abs(n) == n || Abs(n) == -n;
  }

  /** The same value, a positive denominator, and no common factor left. */
  lemma LowestTerms(n: int, d: int)
    requires d > 0
    ensures var r := Lowest(n, d);
            && r.den > 0 && r.num * d == n * r.den
            && forall c: nat | Divides(c, r.num) && Divides(c, r.den) :: c == 1
  {
    hide Divides;
    hide Abs;
    var g := Gcd(Abs(n), d);
    var r := Lowest(n, d);
    GcdDivides(Abs(n), d);
    AbsDivides(g, n);
    ExactQuotient(n, g);
    ExactQuotient(d, g);
    Regroup(r.num, g, r.den);
    if r.den <= 0 { NotPositive(g, r.den); }
    forall c: nat | Divides(c, r.num) && Divides(c, r.den) ensures c == 1 {
      Unreduced(n, g, r.num, c);
      Unreduced(d, g, r.den, c);
      assert Abs(d) == d by { PositiveAbs(d); }
      GcdIsGreatest(Abs(n), d, c * g);
      OnlyOne(c, g);
    }
  }

  lemma PositiveAbs(d: int)
    requires d > 0
    ensures Abs(d) == d
  {
  }

  class Rat {
    var num: int
    var den: int

    constructor (n: int, d: int)
      requires d > 0
      ensures Ratio(num, den) == Lowest(n, d)
    {
      num, den := Lowest(n, d).num, Lowest(n, d).den;
    }

    method SetString(parse: Parser, s: string) returns (ok: bool)
      modifies this
      ensures ok <==> parse(s).Some?
      ensures ok ==> Ratio(num, den) == Lowest(parse(s).value.num, parse(s).value.den)
    {
      var q := parse(s);
      ok := q.Some?;
      if ok {
        num, den := Lowest(q.value.num, q.value.den).num, Lowest(q.value.num, q.value.den).den;
      }
    }

    method Mul(x: Rat, y: Rat)
      requires x.den > 0 && y.den > 0
      modifies this
      ensures Ratio(num, den) == Lowest(old(x.num) * old(y.num), old(x.den) * old(y.den))
    {
      var n, d := x.num * y.num, x.den * y.den;
      num, den := Lowest(n, d).num, Lowest(n, d).den;
    }
  }

  // ----- Decimal strings -----

  function Pow10(k: nat): (p: nat)
    ensures p > 0
  {
    if k == 0 then 1 else 10 * Pow10(k - 1)
  }

  predicate IsDigit(c: char) {
    '0' <= c <= '9'
  }

  /** Reads digits and at most one point from the left; m is what was read, seen counts digits. */
  function Scan(s: string, m: nat, places: Option<nat>, seen: nat): Option<Rational> {
    if s == [] then
      if seen == 0 then None else Some(Ratio(m, Pow10(if places.Some? then places.value else 0)))
    else if IsDigit(s[0]) then
      Scan(s[1..], 10 * m + (s[0] - '0') as nat, if places.Some? then Some(places.value + 1) else None, seen + 1)
    else if s[0] == '.' && places.None? then
      Scan(s[1..], m, Some(0), seen)
    else None
  }

  /** An optional sign, digits, and optionally a point with digits on at least one side of it. */
  function Decimal(s: string): Option<Rational> {
    if s != [] && s[0] == '-' then
      var q := Scan(s[1..], 0, None, 0);
      if q.None? then None else Some(Ratio(-q.value.num, q.value.den))
    else if s != [] && s[0] == '+' then Scan(s[1..], 0, None, 0)
    else Scan(s, 0, None, 0)
  }

  // ----- amountInCentimes -----

  /** The numerator that is left of 100 * q. */
  function Centimes(q: Rational): int {
    var r := Lowest(q.num, q.den);
    LowestTerms(q.num, q.den);
    Lowest(r.num * 100, r.den).num
  }

  method AmountInCentimes(parse: Parser, amount: string) returns (centimes: Option<BigInt>)
    ensures centimes.Some? <==> parse(amount).Some?
    ensures centimes.Some? ==> fresh(centimes.value) && centimes.value.v == Centimes(parse(amount).value)
  {
    var rat := new Rat(0, 1);
    var ok := rat.SetString(parse, amount);
    if !ok {
      return None;
    }
    ghost var q := parse(amount).value;
    LowestTerms(q.num, q.den);
    LowestTerms(100, 1);
    LowestTerms(0, 1);
    var multiplier := new Rat(100, 1);
    OverOne();
    rat.Mul(rat, multiplier);
    var c := new BigInt(rat.num);
    centimes := Some(c);
  }

  lemma OverOne()
    ensures Lowest(100, 1) == Ratio(100, 1)
  {
    assert Gcd(100, 1) == Gcd(1, 0) == 1;
  }

  /** Whatever rational was parsed, the result is the numerator of 100 * q in lowest terms. */
  lemma CentimesIsNumerator(q: Rational) returns (den: int)
    ensures den > 0 && Centimes(q) * q.den == 100 * q.num * den
    ensures forall c: nat | Divides(c, Centimes(q)) && Divides(c, den) :: c == 1
  {
    hide Divides;
    hide Lowest;
    var r := Lowest(q.num, q.den);
    LowestTerms(q.num, q.den);
    LowestTerms(r.num * 100, r.den);
    den := Lowest(r.num * 100, r.den).den;
    CrossMultiply(Centimes(q), den, r.num, r.den, q.num, q.den);
  }

  lemma CrossMultiply(c: int, e: int, n: int, d: int, num: int, den: int)
    requires d > 0 && c * d == n * 100 * e && n * den == num * d
    ensures c * den == 100 * num * e
  {
    assert d * (c * den) == (c * d) * den == (n * 100 * e) * den == (n * den) * (100 * e) == d * (100 * num * e);
    CancelLeft(d, c * den, 100 * num * e);
  }

  /** Exact exactly when the amount has no fraction of a centime. */
  lemma ExactIffWholeCentimes(q: Rational)
    ensures Centimes(q) * q.den == 100 * q.num <==> Divides(q.den, 100 * q.num)
  {
    hide Lowest;
    hide Centimes;
    var den := CentimesIsNumerator(q);
    var c := Centimes(q);
    if c * q.den == 100 * q.num {
      assert 100 * q.num == q.den * c;
    }
    if Divides(q.den, 100 * q.num) {
      var k :| 100 * q.num == q.den * k;
      WholeMeansDenOne(c, q.den, k, den);
    }
  }

  lemma WholeMeansDenOne(c: int, d: int, k: int, den: int)
    requires d > 0 && den > 0 && c * d == d * k * den
    requires forall f: nat | Divides(f, c) && Divides(f, den) :: f == 1
    ensures c * d == d * k
  {
    assert d * c == d * (k * den);
    CancelLeft(d, c, k * den);
    assert c == den * k && den == den * 1;
    assert Divides(den, c) && Divides(den, den);
    assert den == 1;
  }

  predicate AllDigits(s: string) {
    forall i | 0 <= i < |s| :: IsDigit(s[i])
  }

  /** The number written by the digits of m followed by s. */
  function Read(m: nat, s: string): nat
    requires AllDigits(s)
  {
    if s == [] then m else 10 * Read(m, s[..|s| - 1]) + (s[|s| - 1] - '0') as nat
  }

  lemma {:induction false} ReadSplit(m: nat, c: char, s: string)
    requires IsDigit(c) && AllDigits(s)
    ensures AllDigits([c] + s) && Read(m, [c] + s) == Read(10 * m + (c - '0') as nat, s)
  {
    if s == [] {
      assert [c] + s == [c] && [c][..0] == [];
    } else {
      var n := |s| - 1;
      ReadSplit(m, c, s[..n]);
      assert ([c] + s)[..|s|] == [c] + s[..n];
    }
  }

  function Advance(places: Option<nat>, n: nat): Option<nat> {
    if places.Some? then Some(places.value + n) else None
  }

  /** Scanning left to right reads the same number as the positions say. */
  lemma {:induction false} ScanDigits(w: string, rest: string, m: nat, places: Option<nat>, seen: nat)
    requires AllDigits(w)
    ensures Scan(w + rest, m, places, seen) == Scan(rest, Read(m, w), Advance(places, |w|), seen + |w|)
  {
    if w == [] {
      assert w + rest == rest;
    } else {
      assert w == [w[0]] + w[1..];
      assert (w + rest)[1..] == w[1..] + rest;
      ReadSplit(m, w[0], w[1..]);
      ScanDigits(w[1..], rest, 10 * m + (w[0] - '0') as nat, Advance(places, 1), seen + 1);
    }
  }

  lemma {:induction false} ReadConcat(m: nat, w: string, f: string)
    requires AllDigits(w) && AllDigits(f)
    ensures AllDigits(w + f) && Read(m, w + f) == Read(Read(m, w), f)
    decreases |f|
  {
    if f == [] {
      assert w + f == w;
    } else {
      var n := |f| - 1;
      ReadConcat(m, w, f[..n]);
      assert (w + f)[..|w| + n] == w + f[..n];
    }
  }

  /** An unsigned amount: digits w, and with a point also digits f. */
  function Body(w: string, point: bool, f: string): string {
    if point then w + ("." + f) else w
  }

  function Text(sign: string, w: string, point: bool, f: string): string {
    sign + Body(w, point, f)
  }

  predicate IsAmount(sign: string, w: string, point: bool, f: string) {
    && (sign == "" || sign == "+" || sign == "-") && AllDigits(w) && AllDigits(f)
    && w + f != "" && (!point ==> f == "")
  }

  function Signed(sign: string, n: nat): int {
    if sign == "-" then -(n as int) else n
  }

  lemma ScanAmount(w: string, point: bool, f: string)
    requires IsAmount("", w, point, f)
    ensures AllDigits(w + f)
    ensures Scan(Body(w, point, f), 0, None, 0) == Some(Ratio(Read(0, w + f), Pow10(|f|)))
  {
    hide Read;
    hide Pow10;
    ReadConcat(0, w, f);
    if point {
      ScanDigits(w, "." + f, 0, None, 0);
      ScanPoint(f, Read(0, w), |w|);
      ReadNone(Read(0, w));
    } else {
      assert w + "" == w && w + f == w;
      ScanDigits(w, "", 0, None, 0);
    }
  }

  lemma ReadNone(m: nat)
    ensures Read(m, "") == m
  {
  }

  lemma ScanPoint(f: string, m: nat, seen: nat)
    requires AllDigits(f) && seen + |f| > 0
    ensures Scan("." + f, m, None, seen) == Some(Ratio(Read(m, f), Pow10(|f|)))
  {
    hide Read;
    hide Pow10;
    assert ("." + f)[0] == '.' && ("." + f)[1..] == f == f + "";
    ScanDigits(f, "", m, Some(0), seen);
  }

  lemma DecimalOfSigned(sign: string, body: string)
    requires (sign == "" || sign == "+" || sign == "-") && body != "" && body[0] != '+' && body[0] != '-'
    ensures var q := Scan(body, 0, None, 0);
            Decimal(sign + body)
            == if q.Some? && sign == "-" then Some(Ratio(-q.value.num, q.value.den)) else q
  {
    hide Scan;
    if sign == "" {
      assert sign + body == body;
    } else {
      assert (sign + body)[0] == sign[0] && (sign + body)[1..] == body;
    }
  }

  /** What such a text denotes, read off its digits by position. */
  lemma DecimalValue(sign: string, w: string, point: bool, f: string)
    requires IsAmount(sign, w, point, f)
    ensures AllDigits(w + f)
    ensures Decimal(Text(sign, w, point, f)) == Some(Ratio(Signed(sign, Read(0, w + f)), Pow10(|f|)))
  {
    hide Scan;
    hide Decimal;
    hide Read;
    hide Pow10;
    hide Body;
    ScanAmount(w, point, f);
    BodyIsUnsigned(w, point, f);
    DecimalOfSigned(sign, Body(w, point, f));
  }

  lemma BodyIsUnsigned(w: string, point: bool, f: string)
    requires IsAmount("", w, point, f)
    ensures Body(w, point, f) != "" && Body(w, point, f)[0] != '+' && Body(w, point, f)[0] != '-'
  {
    if w != "" {
      assert Body(w, point, f)[0] == w[0];
    } else {
      assert w + f == f;
      assert Body(w, point, f)[0] == '.';
    }
  }

  /** After the point the scan accepts digits only. */
  lemma {:induction false} ScanTail(s: string, m: nat, places: nat, seen: nat)
    requires Scan(s, m, Some(places), seen).Some?
    ensures AllDigits(s) && (seen == 0 ==> s != "")
  {
    if s != [] {
      ScanTail(s[1..], 10 * m + (s[0] - '0') as nat, places + 1, seen + 1);
      assert s == [s[0]] + s[1..];
    }
  }

  lemma BodyCons(c: char, w: string, point: bool, f: string)
    ensures Body([c] + w, point, f) == [c] + Body(w, point, f)
  {
  }

  lemma BodyOfPoint(s: string)
    requires s != "" && s[0] == '.'
    ensures Body("", true, s[1..]) == s
  {
  }

  /** What the scan accepts is digits, or digits around a point. */
  lemma {:induction false} ScanAccepts(s: string, m: nat, seen: nat) returns (w: string, point: bool, f: string)
    requires Scan(s, m, None, seen).Some?
    ensures s == Body(w, point, f) && AllDigits(w) && AllDigits(f) && (!point ==> f == "")
    ensures seen == 0 ==> w + f != ""
  {
    hide Pow10;
    hide Body;
    if s == [] {
      w, point, f := "", false, "";
      assert s == Body(w, point, f) by { EmptyBody(); }
    } else if IsDigit(s[0]) {
      w, point, f := ScanAccepts(s[1..], 10 * m + (s[0] - '0') as nat, seen + 1);
      BodyCons(s[0], w, point, f);
      assert s == [s[0]] + s[1..];
      w := [s[0]] + w;
    } else {
      ScanTail(s[1..], m, 0, seen);
      BodyOfPoint(s);
      w, point, f := "", true, s[1..];
    }
  }

  lemma EmptyBody()
    ensures Body("", false, "") == ""
  {
  }

  /** The texts ReadsDecimals speaks of: an optional sign and digits with at most one point among them. */
  lemma AcceptedIff(s: string)
    ensures Decimal(s).Some? <==>
              exists sign, w, point, f :: IsAmount(sign, w, point, f) && s == Text(sign, w, point, f)
  {
    hide Scan;
    if Decimal(s).Some? {
      var sign := if s != [] && (s[0] == '-' || s[0] == '+') then [s[0]] else "";
      var body := s[|sign|..];
      assert s == sign + body;
      var w, point, f := ScanAccepts(body, 0, 0);
      assert IsAmount(sign, w, point, f) && s == Text(sign, w, point, f);
    }
    if sign, w, point, f :| IsAmount(sign, w, point, f) && s == Text(sign, w, point, f) {
      DecimalValue(sign, w, point, f);
    }
  }

  lemma PowersOfTen()
    ensures Pow10(0) == 1 && Pow10(1) == 10 && Pow10(2) == 100
  {
    assert Pow10(1) == 10 * Pow10(0);
    assert Pow10(2) == 10 * Pow10(1);
  }

  // ----- What a parser has to get right -----

  predicate SameValue(q: Rational, r: Rational) {
    q.num * r.den == r.num * q.den
  }

  /** A signed decimal is read as what its digits say; nothing is asked of other texts. */
  ghost predicate ReadsDecimals(parse: Parser) {
    forall s | Decimal(s).Some? :: parse(s).Some? && SameValue(parse(s).value, Decimal(s).value)
  }

  /** The assumption can be met. */
  lemma DecimalReadsDecimals()
    ensures ReadsDecimals(Decimal)
  {
  }

  lemma WholeValue(q: Rational, r: Rational, k: int)
    requires SameValue(q, r) && 100 * r.num == r.den * k
    ensures 100 * q.num == q.den * k
  {
    assert r.den * (100 * q.num) == 100 * (q.num * r.den) == 100 * (r.num * q.den) == (100 * r.num) * q.den
        == r.den * (q.den * k);
    CancelLeft(r.den, 100 * q.num, q.den * k);
  }

  /** With at most two decimals the amount is 100 times what the text denotes, whatever its sign. */
  lemma TwoDecimalsAreExact(parse: Parser, sign: string, w: string, point: bool, f: string)
    requires ReadsDecimals(parse) && IsAmount(sign, w, point, f) && |f| <= 2
    ensures AllDigits(w + f)
    ensures var q := parse(Text(sign, w, point, f));
            q.Some? && Centimes(q.value) == Signed(sign, Read(0, w + f)) * Pow10(2 - |f|)
  {
    hide Centimes;
    hide Decimal;
    hide Text;
    hide Pow10;
    hide SameValue;
    DecimalValue(sign, w, point, f);
    PowersOfTen();
    var n := Signed(sign, Read(0, w + f));
    var k := n * Pow10(2 - |f|);
    assert 100 * n == Pow10(|f|) * k;
    var q := parse(Text(sign, w, point, f)).value;
    WholeValue(q, Ratio(n, Pow10(|f|)), k);
    ExactIffWholeCentimes(q);
    assert 100 * q.num == q.den * k;
    CancelLeft(q.den, Centimes(q), k);
  }

  /** A third of a dinar, as a parser that reads "1/3" finds it, becomes a whole dinar. */
  lemma ThirdMisread()
    ensures Centimes(Ratio(1, 3)) == 100
  {
    assert Gcd(1, 3) == Gcd(3, 1) == Gcd(1, 0) == 1;
    assert Lowest(1, 3) == Ratio(1, 3);
    assert Gcd(100, 3) == Gcd(3, 1) == 1;
  }

  lemma ReadOne()
    ensures AllDigits("0001") && Read(0, "0001") == 1
  {
    assert "0001"[..3] == "000" && "000"[..2] == "00" && "00"[..1] == "0" && "0"[..0] == "";
    assert Read(0, "0") == 0 && Read(0, "00") == 0 && Read(0, "000") == 0;
  }

  lemma TenthOfACentime()
    ensures Centimes(Ratio(1, 1000)) == 1
  {
    assert Gcd(1, 1000) == Gcd(1000, 1) == Gcd(1, 0) == 1;
    assert Lowest(1, 1000) == Ratio(1, 1000);
    assert Gcd(100, 1000) == Gcd(1000, 100) == Gcd(100, 0) == 100;
    assert Lowest(100, 1000) == Ratio(1, 10);
  }

  /** A third decimal can be read as something else entirely: a tenth of a centime becomes a centime. */
  lemma ThirdDecimalMisread()
    ensures Decimal("0.001") == Some(Ratio(1, 1000)) && Centimes(Ratio(1, 1000)) == 1
  {
    hide Decimal;
    hide Read;
    hide Centimes;
    hide Scan;
    assert AllDigits("0") && AllDigits("001") && "0" + "001" == "0001";
    assert Text("", "0", true, "001") == "0.001";
    ReadOne();
    TenthOfACentime();
    PowersOfTen();
    assert Pow10(3) == 10 * Pow10(2);
    DecimalValue("", "0", true, "001");
  }
}
