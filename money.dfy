/** Document amounts. Amounts are kept in minor units (hundredths of the
    currency unit) and the company's tax rate is taken to be a whole
    percentage, so `Math.round(subtotal * taxRate) / 100` of the services,
    for a nonnegative subtotal, is the subtotal-times-rate rounded half up to
    a whole minor unit. */
module Money {

  /** The tax on a subtotal (both in minor units) at a whole-percent rate,
      rounded to the nearest minor unit, halves up. */
  function TaxAmount(subtotal: nat, rate: nat): (tax: nat)
    ensures 100 * tax <= subtotal * rate + 50 < 100 * tax + 100
  {
    (subtotal * rate + 50) / 100
  }

  /** `total_amount = subtotal + tax_amount`. */
  function TotalAmount(subtotal: nat, rate: nat): (total: nat)
    ensures total >= subtotal
  {
    subtotal + TaxAmount(subtotal, rate)
  }

  /** The tax is within half a minor unit of the exact product, and is the only
      whole amount that is, with ties going up. */
  lemma TaxIsNearest(subtotal: nat, rate: nat, t: nat)
    ensures (100 * t - 50 <= subtotal * rate < 100 * t + 50) <==> t == TaxAmount(subtotal, rate)
  {
    var tax := TaxAmount(subtotal, rate);
    if 100 * t - 50 <= subtotal * rate < 100 * t + 50 {
      assert 100 * t < 100 * tax + 100 && 100 * tax < 100 * t + 100;
    }
  }

  /** With a rate between 0 and 100 percent the tax is at most the subtotal. */
  lemma TaxAtMostSubtotal(subtotal: nat, rate: nat)
    requires rate <= 100
    ensures TaxAmount(subtotal, rate) <= subtotal
    ensures TotalAmount(subtotal, rate) <= 2 * subtotal
  {
    var tax := TaxAmount(subtotal, rate);
    assert subtotal * rate <= subtotal * 100 by {
      MultiplyMonotone(subtotal, rate, 100);
    }
  }

  /** A larger subtotal never has a smaller tax at the same rate. */
  lemma TaxMonotone(s1: nat, s2: nat, rate: nat)
    requires s1 <= s2
    ensures TaxAmount(s1, rate) <= TaxAmount(s2, rate)
    ensures TotalAmount(s1, rate) <= TotalAmount(s2, rate)
  {
    assert s1 * rate <= s2 * rate by {
      MultiplyMonotone(rate, s1, s2);
    }
  }

  lemma MultiplyMonotone(a: nat, b: nat, c: nat)
    requires b <= c
    ensures a * b <= a * c
  {
  }
}
