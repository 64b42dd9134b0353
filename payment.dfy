/**
 The payment strategies: each adds the flat fee of its payment method to the
 already discounted total.
 */
module Payment {

  /** The three payment methods an order processor can be given. */
  datatype PaymentStrategy = CashPayment | QrisPayment | EWalletPayment

  /** The flat surcharge of a payment method. */
  function Fee(p: PaymentStrategy): (f: int)
    ensures 0 <= f <= 1500
    ensures f == 0 <==> p == CashPayment
  {
    match p
    case CashPayment => 0
    case QrisPayment => 1000
    case EWalletPayment => 1500
  }

  /**
   The total to pay. No payment method lowers the total, only cash leaves it
   as it is, and no surcharge exceeds 1500.
   */
  function ApplyFee(p: PaymentStrategy, total: int): (r: int)
    ensures total <= r <= total + 1500
    ensures r == total <==> p == CashPayment
  {
    total + Fee(p)
  }

  /** The fee of each method, as a function of the total. */
  lemma FeeRules(total: int)
    ensures ApplyFee(CashPayment, total) == total
    ensures ApplyFee(QrisPayment, total) == total + 1000
    ensures ApplyFee(EWalletPayment, total) == total + 1500
  {
  }

  /**
   Fees are flat, not a percentage: raising the total by some amount raises
   the amount to pay by the same amount.
   */
  lemma FeeIsFlat(p: PaymentStrategy, total: int, delta: int)
    ensures ApplyFee(p, total + delta) == ApplyFee(p, total) + delta
  {
  }
}
