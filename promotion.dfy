/**
 The promotion strategies: each maps an order's subtotal to the discounted
 total, and depends on nothing but that subtotal.
 */
module Promotion {

  /** The three promotions an order processor can be given. */
  datatype PromotionStrategy = DineInPromo | TakeAwayPromo | HappyHourPromo

  const DineInThreshold: int := 100000
  const DineInDiscount: int := 10000
  const TakeAwayThreshold: int := 80000
  const TakeAwayDiscount: int := 5000

  /**
   The happy-hour discount: a fifth of the total, truncated toward zero, as
   converting the product of the total and 0.2 to an integer does.
   */
  function HappyHourDiscount(total: int): (d: int)
    ensures 0 <= total ==> 0 <= 5 * d <= total < 5 * d + 5
    ensures total < 0 ==> total <= 5 * d < total + 5
  {
    if total >= 0 then total / 5 else -((-total) / 5)
  }

  /**
   The discounted total. A promotion never takes a non-negative total below
   zero or above itself; the two flat-rate promotions never raise any total.
   */
  function Apply(p: PromotionStrategy, total: int): (r: int)
    ensures 0 <= total ==> 0 <= r <= total
    ensures p != HappyHourPromo ==> r <= total
  {
    match p
    case DineInPromo =>
      var discount := if total > DineInThreshold then DineInDiscount else 0;
      total - discount
    case TakeAwayPromo =>
      var discount := if total > TakeAwayThreshold then TakeAwayDiscount else 0;
      total - discount
    case HappyHourPromo =>
      total - HappyHourDiscount(total)
  }

  /** Dine-in takes off a flat 10000 exactly when the total is strictly above 100000. */
  lemma DineInRule(total: int)
    ensures Apply(DineInPromo, total) < total <==> total > 100000
    ensures Apply(DineInPromo, total) == total || Apply(DineInPromo, total) == total - 10000
  {
  }

  /** Take-away takes off a flat 5000 exactly when the total is strictly above 80000. */
  lemma TakeAwayRule(total: int)
    ensures Apply(TakeAwayPromo, total) < total <==> total > 80000
    ensures Apply(TakeAwayPromo, total) == total || Apply(TakeAwayPromo, total) == total - 5000
  {
  }

  /** The thresholds are strict: a total equal to the threshold gets no discount. */
  lemma ThresholdBoundaries()
    ensures Apply(DineInPromo, 100000) == 100000
    ensures Apply(DineInPromo, 100001) == 90001
    ensures Apply(TakeAwayPromo, 80000) == 80000
    ensures Apply(TakeAwayPromo, 80001) == 75001
  {
  }

  /**
   Happy hour keeps four fifths of a non-negative total, rounded up: the
   result is the least r with 5 * r >= 4 * total.
   */
  lemma HappyHourKeepsFourFifths(total: int)
    requires 0 <= total
    ensures 4 * total <= 5 * Apply(HappyHourPromo, total) < 4 * total + 5
  {
  }

  /** A larger non-negative total never ends up cheaper after happy hour. */
  lemma HappyHourMonotone(t1: int, t2: int)
    requires 0 <= t1 <= t2
    ensures Apply(HappyHourPromo, t1) <= Apply(HappyHourPromo, t2)
  {
  }

  /** Sample values: the discount is truncated toward zero, so a negative total rises. */
  lemma HappyHourExample()
    ensures Apply(HappyHourPromo, 90000) == 72000
    ensures Apply(HappyHourPromo, 7) == 6
    ensures Apply(HappyHourPromo, -7) == -6
  {
  }

  /**
   The flat-rate promotions are not monotone: one unit above the threshold
   the customer pays less than at the threshold itself.
   */
  lemma FlatPromotionsNotMonotone()
    ensures Apply(DineInPromo, 100001) < Apply(DineInPromo, 100000)
    ensures Apply(TakeAwayPromo, 80001) < Apply(TakeAwayPromo, 80000)
  {
  }
}
