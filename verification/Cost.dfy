/** The total of a completion is computed in floating point and stored in cents. */
module Cost {
  import opened Tables
  import opened Transactions
  import opened Completion

  /** Half a unit in the last place of a double: 2^-53. */
  const ULP := 1.0 / 9007199254740992.0

  /** A price and a quantity as the completion loop meets them. */
  datatype Charge = Charge(unitCost: nat, quantity: nat)

  function Amount(charge: Charge): nat {
    charge.unitCost * charge.quantity
  }

  function Cents(charges: seq<Charge>): nat {
    if charges == [] then 0
    else Cents(charges[..|charges| - 1]) + Amount(charges[|charges| - 1])
  }

  /** Column numeric(10,2): fewer than 10^10 cents. */
  const MAX_CENTS := 10_000_000_000

  /** Zero, or an amount far from both underflow and overflow. */
  predicate Normal(x: real) {
    x == 0.0 || 0.001 <= x <= 1000000000000000.0
  }

  /** fl is any rounding of such amounts that is off by a relative error of at most 2^-53. */
  ghost predicate Rounding(fl: real -> real) {
    forall x: real :: Normal(x) ==> x - ULP * x <= fl(x) <= x + ULP * x
  }

  /** `unitCost * quantityUsed`, with unitCost the double read from the numeric column. */
  function Product(fl: real -> real, charge: Charge): real {
    FloatProduct(fl, charge.unitCost as real / 100.0, charge.quantity as real)
  }

  function FloatProduct(fl: real -> real, price: real, quantity: real): real {
    fl(fl(price) * quantity)
  }

  /** The accumulator of the loop, in currency units. */
  function FloatTotal(fl: real -> real, charges: seq<Charge>): real {
    if charges == [] then 0.0
    else fl(FloatTotal(fl, charges[..|charges| - 1]) + Product(fl, charges[|charges| - 1]))
  }

  /** `Math.round`: the nearest integer, ties upward. */
  function Round(x: real): int {
    (x + 0.5).Floor
  }

  /** What the column stores: the rounded total divided by 100 again, kept to the nearest cent. */
  function StoredCents(fl: real -> real, charges: seq<Charge>): int {
    Round(100.0 * fl(Round(fl(FloatTotal(fl, charges) * 100.0)) as real / 100.0))
  }

  /** y is x up to a relative error e. */
  ghost predicate Near(y: real, x: real, e: real) {
    x - e * x <= y <= x + e * x
  }

  lemma NonNegative(a: real, b: real)
    requires a >= 0.0 && b >= 0.0
    ensures a * b >= 0.0
  {
  }

  lemma NearIsNormal(y: real, x: real, e: real)
    requires Near(y, x, e) && 0.0 <= e <= 0.5 && (x == 0.0 || 0.01 <= x <= 100000000000.0)
    ensures Normal(y) && 0.0 <= y <= 2.0 * x
  {
    if x == 0.0 {
      assert e * x == 0.0;
    } else {
      NonNegative(e, x);
      NonNegative(0.5 - e, x);
      assert 0.5 * x == e * x + (0.5 - e) * x;
      var m := e * x;
      assert 0.0 <= m <= 0.5 * x && x - m <= y <= x + m;
    }
  }

  lemma NearRounds(fl: real -> real, y: real, x: real, e: real)
    requires Rounding(fl) && Near(y, x, e) && 0.0 <= e <= 0.5
    requires x == 0.0 || 0.01 <= x <= 100000000000.0
    ensures Near(fl(y), x, e + 2.0 * ULP)
  {
    NearIsNormal(y, x, e);
    assert y - ULP * y <= fl(y) <= y + ULP * y;
    assert ULP * y <= ULP * (2.0 * x);
    assert (e + 2.0 * ULP) * x == e * x + ULP * (2.0 * x);
  }

  lemma NearScales(y: real, x: real, e: real, factor: real)
    requires Near(y, x, e) && factor >= 0.0
    ensures Near(y * factor, x * factor, e)
  {
  }

  lemma NearAdds(y: real, x: real, z: real, w: real, e: real)
    requires Near(y, x, e) && Near(z, w, e)
    ensures Near(y + z, x + w, e)
  {
  }

  lemma NearWidens(y: real, x: real, e: real, wider: real)
    requires Near(y, x, e) && x >= 0.0 && e <= wider
    ensures Near(y, x, wider)
  {
    assert (wider - e) * x >= 0.0;
    assert wider * x == e * x + (wider - e) * x;
  }

  lemma CentsAreNormal(n: nat)
    ensures var x := n as real / 100.0; x == 0.0 || 0.01 <= x
  {
  }

  lemma QuantityEnlarges(price: real, quantity: real, amount: real)
    requires (price == 0.0 || 0.01 <= price) && quantity >= 1.0 && amount == price * quantity
    ensures amount == 0.0 || 0.01 <= amount
  {
    assert (quantity - 1.0) * price >= 0.0;
    assert amount == price + (quantity - 1.0) * price;
  }

  lemma NearItself(x: real)
    ensures Near(x, x, 0.0)
  {
  }

  lemma ScaledPriceIsNear(fl: real -> real, price: real, quantity: real)
    requires Rounding(fl) && quantity >= 1.0
    requires price == 0.0 || 0.01 <= price
    requires price * quantity <= 100000000000.0
    ensures Near(FloatProduct(fl, price, quantity), price * quantity, 4.0 * ULP)
  {
    hide Rounding, Near;
    var amount := price * quantity;
    QuantityEnlarges(price, quantity, amount);
    NearItself(price);
    NearRounds(fl, price, price, 0.0);
    NearScales(fl(price), price, 2.0 * ULP, quantity);
    NearRounds(fl, fl(price) * quantity, amount, 2.0 * ULP);
  }

  lemma ProductIsNear(fl: real -> real, charge: Charge)
    requires Rounding(fl) && charge.quantity >= 1 && Amount(charge) < MAX_CENTS
    ensures Near(Product(fl, charge), Units(Amount(charge)), 4.0 * ULP)
  {
    hide Rounding, Near, FloatProduct;
    var price, quantity := charge.unitCost as real / 100.0, charge.quantity as real;
    assert Amount(charge) as real == charge.unitCost as real * quantity;
    assert price * quantity == Amount(charge) as real / 100.0;
    CentsAreNormal(charge.unitCost);
    ScaledPriceIsNear(fl, price, quantity);
  }

  /** The error bound after k terms. */
  function Error(k: nat): real {
    (4.0 + 2.0 * k as real) * ULP
  }

  lemma ErrorGrows(k: nat)
    requires k <= 100_000
    ensures 4.0 * ULP <= Error(k) <= 0.5 && Error(k + 1) == Error(k) + 2.0 * ULP
  {
  }

  lemma TermIsAdded(fl: real -> real, total: real, sum: real, product: real, term: real, k: nat)
    requires Rounding(fl) && k < 100_000 && term >= 0.0
    requires Near(total, sum, Error(k)) && Near(product, term, 4.0 * ULP)
    requires sum + term == 0.0 || 0.01 <= sum + term <= 100000000000.0
    ensures Near(fl(total + product), sum + term, Error(k + 1))
  {
    hide Rounding, Near, Error;
    ErrorGrows(k);
    NearWidens(product, term, 4.0 * ULP, Error(k));
    NearAdds(total, sum, product, term, Error(k));
    NearRounds(fl, total + product, sum + term, Error(k));
  }

  /** An amount of money, in currency units. */
  function Units(cents: nat): real {
    cents as real / 100.0
  }

  lemma UnitsAdd(a: nat, b: nat)
    requires a + b < MAX_CENTS
    ensures Units(a + b) == Units(a) + Units(b) && Units(b) >= 0.0
    ensures Units(a + b) == 0.0 || 0.01 <= Units(a + b) <= 100000000000.0
  {
  }

  lemma NextTotal(fl: real -> real, charges: seq<Charge>)
    requires charges != []
    ensures var n := |charges| - 1;
            FloatTotal(fl, charges) == fl(FloatTotal(fl, charges[..n]) + Product(fl, charges[n]))
    ensures Cents(charges) == Cents(charges[..|charges| - 1]) + Amount(charges[|charges| - 1])
  {
    hide Product, Amount, FloatProduct;
  }

  lemma NothingIsNear(e: real)
    ensures Near(0.0, Units(0), e)
  {
  }

  lemma {:induction false} FloatTotalIsNear(fl: real -> real, charges: seq<Charge>)
    requires Rounding(fl) && |charges| <= 100_000 && Cents(charges) < MAX_CENTS
    requires forall i :: 0 <= i < |charges| ==> charges[i].quantity >= 1
    ensures Near(FloatTotal(fl, charges), Units(Cents(charges)), Error(|charges|))
  {
    if charges == [] {
      hide Error;
      NothingIsNear(Error(0));
    } else {
      hide Rounding, Near, Product, Error, Amount, Units, FloatProduct;
      var n := |charges| - 1;
      var earlier, last := charges[..n], charges[n];
      FloatTotalIsNear(fl, earlier);
      ProductIsNear(fl, last);
      hide FloatTotal;
      UnitsAdd(Cents(earlier), Amount(last));
      hide Cents;
      TermIsAdded(fl, FloatTotal(fl, earlier), Units(Cents(earlier)), Product(fl, last), Units(Amount(last)), n);
      NextTotal(fl, charges);
    }
  }

  lemma RoundIsExact(x: real, n: nat, e: real)
    requires Near(x, n as real, e) && n < MAX_CENTS && e <= Error(100_001)
    ensures Round(x) == n
  {
    NearWidens(x, n as real, e, Error(100_001));
    assert Error(100_001) * n as real <= Error(100_001) * 10_000_000_000.0;
  }

  lemma RoundedSumIsExact(fl: real -> real, charges: seq<Charge>)
    requires Rounding(fl) && |charges| <= 100_000 && Cents(charges) < MAX_CENTS
    requires forall i :: 0 <= i < |charges| ==> charges[i].quantity >= 1
    ensures Round(fl(FloatTotal(fl, charges) * 100.0)) == Cents(charges)
  {
    var n, total, e := Cents(charges), FloatTotal(fl, charges), Error(|charges|);
    FloatTotalIsNear(fl, charges);
    assert Units(n) * 100.0 == n as real && 0.0 <= e <= 0.5 && e + 2.0 * ULP <= Error(100_001);
    hide Rounding, Near, FloatTotal, Cents, Error, Round;
    NearScales(total, n as real / 100.0, e, 100.0);
    NearRounds(fl, total * 100.0, n as real, e);
    RoundIsExact(fl(total * 100.0), n, e + 2.0 * ULP);
  }

  /** Up to 100,000 listed parts and a total the numeric(10,2) column can hold, floating point does
      not show: the stored total is exactly the sum of unit cost times quantity, in cents. */
  lemma StoredTotalIsExact(fl: real -> real, charges: seq<Charge>)
    requires Rounding(fl) && |charges| <= 100_000 && Cents(charges) < MAX_CENTS
    requires forall i :: 0 <= i < |charges| ==> charges[i].quantity >= 1
    ensures StoredCents(fl, charges) == Cents(charges)
  {
    hide Rounding, FloatTotal;
    RoundedSumIsExact(fl, charges);
    var n := Cents(charges);
    var exact := n as real / 100.0;
    CentsAreNormal(n);
    NearItself(exact);
    NearRounds(fl, exact, exact, 0.0);
    NearScales(fl(exact), exact, 2.0 * ULP, 100.0);
    RoundIsExact(100.0 * fl(exact), n, 2.0 * ULP);
  }

  function ChargesOf(parts: map<Id, Part>, lines: seq<Line>): seq<Charge> {
    seq(|lines|, i requires 0 <= i < |lines| =>
      Charge(if lines[i].part in parts then parts[lines[i].part].unitCost else 0, lines[i].quantity))
  }

  lemma {:induction false} ChargesTotal(parts: map<Id, Part>, lines: seq<Line>)
    ensures Cents(ChargesOf(parts, lines)) == Total(PriceIn(parts), lines)
  {
    if lines != [] {
      var n := |lines| - 1;
      assert ChargesOf(parts, lines)[..n] == ChargesOf(parts, lines[..n]);
      ChargesTotal(parts, lines[..n]);
    }
  }

  /** So the exact total that completion records on the order is the one the code stores. */
  lemma CompletionStoresExactTotal(fl: real -> real, c: Core, op: Op)
    requires Rounding(fl) && op.Complete? && Valid(op) && Run(c, op).Ok?
    requires |op.lines| <= 100_000 && Cents(ChargesOf(c.parts, op.lines)) < MAX_CENTS
    ensures Run(c, op).value.orders[op.order].totalCost.value == StoredCents(fl, ChargesOf(c.parts, op.lines))
  {
    CompletionSucceedsIff(c, op);
    ChargesTotal(c.parts, op.lines);
    StoredTotalIsExact(fl, ChargesOf(c.parts, op.lines));
  }
}
