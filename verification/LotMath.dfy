/** Lot arithmetic of the clearing house: conversions between base lots and quote lots
    at a price in ticks, both rounded down. Products and quotients are named recursive
    functions, so that other modules reason by their laws and not by nonlinear arithmetic. */
module LotMath {

  /** Lot sizes and tick of a market. A zero lot size or tick would make one of the two
      conversions divide by zero. */
  datatype PrecisionData = Precision(baseLot: nat, quoteLot: nat, tick: nat, tickDecimals: nat)

  type MarketPrecision = p: PrecisionData | p.baseLot > 0 && p.quoteLot > 0 && p.tick > 0
    witness Precision(1, 1, 1, 0)

  // ---------- products and floor quotients ----------

  function Scale(a: nat, b: nat): nat {
    if a == 0 then 0 else b + Scale(a - 1, b)
  }

  lemma {:induction false} ScaleIsProduct(a: nat, b: nat)
    ensures Scale(a, b) == a * b
  {
    if a > 0 {
      ScaleIsProduct(a - 1, b);
      assert a * b == b + (a - 1) * b;
    }
  }

  lemma {:induction false} ScaleAdd(a: nat, b: nat, c: nat)
    ensures Scale(a + b, c) == Scale(a, c) + Scale(b, c)
  {
    if a > 0 {
      ScaleAdd(a - 1, b, c);
    }
  }

  lemma {:induction false} ScaleMono(a: nat, a': nat, b: nat, b': nat)
    requires a <= a' && b <= b'
    ensures Scale(a, b) <= Scale(a', b')
  {
    if a > 0 {
      ScaleMono(a - 1, a' - 1, b, b');
    }
  }

  lemma {:induction false} ScalePositive(a: nat, b: nat)
    requires a > 0 && b > 0
    ensures Scale(a, b) > 0
  {
  }

  function Floor(n: nat, d: nat): nat
    requires d > 0
  {
    if n < d then 0 else 1 + Floor(n - d, d)
  }

  lemma {:induction false} FloorBounds(n: nat, d: nat)
    requires d > 0
    ensures Scale(Floor(n, d), d) <= n < Scale(Floor(n, d), d) + d
  {
    if n >= d {
      FloorBounds(n - d, d);
    }
  }

  lemma {:induction false} FloorIsQuotient(n: nat, d: nat)
    requires d > 0
    ensures Floor(n, d) == n / d
  {
    FloorBounds(n, d);
    ScaleIsProduct(Floor(n, d), d);
    UniqueQuotient(n, d, Floor(n, d));
  }

  lemma {:induction false} UniqueQuotient(n: nat, d: nat, q: nat)
    requires d > 0 && q * d <= n < q * d + d
    ensures q == n / d
  {
    var k := n / d;
    assert k * d <= n < k * d + d;
    assert (q + 1) * d == q * d + d && (k + 1) * d == k * d + d;
    if q < k {
      MulLe(q + 1, k, d);
    } else if k < q {
      MulLe(k + 1, q, d);
    }
  }

  lemma {:induction false} MulLe(a: nat, b: nat, c: nat)
    requires a <= b
    ensures a * c <= b * c
  {
    assert b * c == a * c + (b - a) * c;
  }

  /** `q` is at most the quotient exactly when `q` whole divisors fit. */
  lemma {:induction false} FloorAtLeast(n: nat, d: nat, q: nat)
    requires d > 0
    ensures q <= Floor(n, d) <==> Scale(q, d) <= n
  {
    FloorBounds(n, d);
    if q <= Floor(n, d) {
      ScaleMono(q, Floor(n, d), d, d);
    } else {
      ScaleMono(Floor(n, d) + 1, q, d, d);
    }
  }

  lemma {:induction false} FloorMono(n: nat, n': nat, d: nat)
    requires d > 0 && n <= n'
    ensures Floor(n, d) <= Floor(n', d)
  {
    FloorBounds(n, d);
    FloorAtLeast(n', d, Floor(n, d));
  }

  /** Splitting a dividend loses at most one unit and never gains. */
  lemma {:induction false} FloorSplit(m: nat, n: nat, d: nat)
    requires d > 0
    ensures Floor(m, d) + Floor(n, d) <= Floor(m + n, d) <= Floor(m, d) + Floor(n, d) + 1
  {
    var a, b := Floor(m, d), Floor(n, d);
    FloorBounds(m, d);
    FloorBounds(n, d);
    ScaleAdd(a, b, d);
    FloorAtLeast(m + n, d, a + b);
    FloorAtLeast(m + n, d, a + b + 2);
    assert Scale(a + b + 2, d) == d + Scale(a + b + 1, d) == d + d + Scale(a + b, d);
  }

  // ---------- conversions ----------

  function Pow10(n: nat): (r: nat)
    ensures r > 0
  {
    if n == 0 then 1 else 10 * Pow10(n - 1)
  }

  /** Scaled cost of one base lot at `price`. */
  function Rate(price: nat, p: MarketPrecision): (r: nat)
    ensures price > 0 ==> r > 0
  {
    if price > 0 then
      ScalePositive(p.baseLot, price);
      ScalePositive(Scale(p.baseLot, price), p.tick);
      Scale(Scale(p.baseLot, price), p.tick)
    else Scale(Scale(p.baseLot, price), p.tick)
  }

  /** Scaled value of one quote lot. */
  function Unit(p: MarketPrecision): (r: nat)
    ensures r > 0
  {
    ScalePositive(p.quoteLot, Pow10(p.tickDecimals));
    Scale(p.quoteLot, Pow10(p.tickDecimals))
  }

  function BaseToQuote(base: nat, price: nat, p: MarketPrecision): nat {
    Floor(Scale(base, Rate(price, p)), Unit(p))
  }

  function QuoteToBase(quote: nat, price: nat, p: MarketPrecision): nat
    requires price > 0
  {
    Floor(Scale(quote, Unit(p)), Rate(price, p))
  }

  /** Both conversions are the program's floor divisions of its integer products. */
  lemma {:induction false} ConversionsAreFloors(n: nat, price: nat, p: MarketPrecision)
    ensures p.quoteLot * Pow10(p.tickDecimals) > 0
    ensures BaseToQuote(n, price, p) == n * (p.baseLot * price * p.tick) / (p.quoteLot * Pow10(p.tickDecimals))
    ensures price > 0 ==> p.baseLot * price * p.tick > 0
    ensures price > 0 ==>
      QuoteToBase(n, price, p) == n * (p.quoteLot * Pow10(p.tickDecimals)) / (p.baseLot * price * p.tick)
  {
    ScaleIsProduct(p.baseLot, price);
    ScaleIsProduct(p.baseLot * price, p.tick);
    ScaleIsProduct(p.quoteLot, Pow10(p.tickDecimals));
    ScaleIsProduct(n, Rate(price, p));
    ScaleIsProduct(n, Unit(p));
    FloorIsQuotient(Scale(n, Rate(price, p)), Unit(p));
    if price > 0 {
      FloorIsQuotient(Scale(n, Unit(p)), Rate(price, p));
    }
  }

  /** Quote values are superadditive in size, and short by at most one lot per split. */
  lemma {:induction false} SplitFill(a: nat, b: nat, price: nat, p: MarketPrecision)
    ensures BaseToQuote(a, price, p) + BaseToQuote(b, price, p) <= BaseToQuote(a + b, price, p)
    ensures BaseToQuote(a + b, price, p) <= BaseToQuote(a, price, p) + BaseToQuote(b, price, p) + 1
  {
    ScaleAdd(a, b, Rate(price, p));
    FloorSplit(Scale(a, Rate(price, p)), Scale(b, Rate(price, p)), Unit(p));
  }

  lemma {:induction false} RateMono(price: nat, price': nat, p: MarketPrecision)
    requires price <= price'
    ensures Rate(price, p) <= Rate(price', p)
  {
    ScaleMono(p.baseLot, p.baseLot, price, price');
    ScaleMono(Scale(p.baseLot, price), Scale(p.baseLot, price'), p.tick, p.tick);
  }

  /** A larger size at a higher price never costs less. */
  lemma {:induction false} QuoteMono(a: nat, b: nat, price: nat, price': nat, p: MarketPrecision)
    requires a <= b && price <= price'
    ensures BaseToQuote(a, price, p) <= BaseToQuote(b, price', p)
  {
    RateMono(price, price', p);
    ScaleMono(a, b, Rate(price, p), Rate(price', p));
    FloorMono(Scale(a, Rate(price, p)), Scale(b, Rate(price', p)), Unit(p));
  }

  /** Converting quote to base and back never exceeds the quote spent. */
  lemma {:induction false} RoundTripWithinBudget(quote: nat, price: nat, p: MarketPrecision)
    requires price > 0
    ensures BaseToQuote(QuoteToBase(quote, price, p), price, p) <= quote
  {
    var u, r := Unit(p), Rate(price, p);
    var base := QuoteToBase(quote, price, p);
    FloorBounds(Scale(quote, u), r);
    FloorMono(Scale(base, r), Scale(quote, u), u);
    FloorAtLeast(Scale(quote, u), u, quote + 1);
  }

  /** A smaller budget at a higher price buys no more. */
  lemma {:induction false} BaseAntitone(quote: nat, quote': nat, price: nat, price': nat, p: MarketPrecision)
    requires 0 < price <= price' && quote' <= quote
    ensures QuoteToBase(quote', price', p) <= QuoteToBase(quote, price, p)
  {
    RateMono(price, price', p);
    var u, r, r' := Unit(p), Rate(price, p), Rate(price', p);
    var base := QuoteToBase(quote', price', p);
    FloorBounds(Scale(quote', u), r');
    ScaleMono(base, base, r, r');
    ScaleMono(quote', quote, u, u);
    FloorAtLeast(Scale(quote, u), r, base);
  }

  // ---------- machine widths ----------

  const U64: nat := 0x1_0000_0000_0000_0000
  const U128: nat := 0x1_0000_0000_0000_0000_0000_0000_0000_0000

  /** The conversion as the program computes it: a 128-bit product and a truncating cast. */
  function BaseToQuoteU64(base: nat, price: nat, p: MarketPrecision): (r: nat)
    requires Scale(base, Rate(price, p)) < U128
  {
    BaseToQuote(base, price, p) % U64
  }

  /** If the lock of a whole order fits 64 bits, every partial fill at an equal or lower
      price is computed without overflow or truncation. */
  lemma {:induction false} FillsFitWhenLockFits(base: nat, price: nat, part: nat, fillPrice: nat, p: MarketPrecision)
    requires part <= base && fillPrice <= price
    requires Scale(base, Rate(price, p)) < U128 && BaseToQuote(base, price, p) < U64
    ensures Scale(part, Rate(fillPrice, p)) < U128
    ensures BaseToQuoteU64(part, fillPrice, p) == BaseToQuote(part, fillPrice, p)
  {
    RateMono(fillPrice, price, p);
    ScaleMono(part, base, Rate(fillPrice, p), Rate(price, p));
    QuoteMono(part, base, fillPrice, price, p);
  }
}
