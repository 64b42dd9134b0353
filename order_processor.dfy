/**
 The order processor: it owns no pricing, discount or fee rule of its own and
 only runs the injected stages in a fixed order — catalog subtotal, then
 promotion, then payment fee, then receipt — returning the final total.
 */
module OrderProcessing {
  import opened Catalog
  import opened Promotion
  import opened Payment
  import opened Receipt

  /**
   What processing an order yields. It succeeds exactly when every ordered
   name is on the menu; the amount is then the payment fee applied to the
   promotion applied to the subtotal, and otherwise the order fails on its
   first unknown name.
   */
  function Checkout(promo: PromotionStrategy, payment: PaymentStrategy, catalog: PriceCatalog,
                    items: seq<string>): (r: Result<int>)
    ensures r.Ok? <==> AllKnown(Prices(catalog), items)
    ensures r.Ok? ==> r.value == ApplyFee(payment, Apply(promo, SumPrices(Prices(catalog), items)))
    ensures r.Err? ==> r.error == ItemNotFound(items[FirstUnknown(Prices(catalog), items)])
  {
    TallyCharacterized(catalog, items, 0);
    var subtotal :- CatalogTotal(catalog, items);
    Ok(ApplyFee(payment, Apply(promo, subtotal)))
  }

  class OrderProcessor {
    const promo: PromotionStrategy
    const payment: PaymentStrategy
    const catalog: PriceCatalog
    const printer: ReceiptPrinter

    /** The four collaborators are injected once and never replaced. */
    constructor (promo: PromotionStrategy, payment: PaymentStrategy, catalog: PriceCatalog,
                 printer: ReceiptPrinter)
      ensures this.promo == promo && this.payment == payment
      ensures this.catalog == catalog && this.printer == printer
    {
      this.promo := promo;
      this.payment := payment;
      this.catalog := catalog;
      this.printer := printer;
    }

    /**
     Processes one order. An unknown name aborts it in the catalog stage, so
     no promotion, fee or receipt follows and nothing is printed; otherwise
     exactly one receipt for the final total is printed.
     */
    method Process(items: seq<string>) returns (r: Result<int>)
      modifies printer
      ensures r == Checkout(promo, payment, catalog, items)
      ensures r.Ok? ==> printer.printed == old(printer.printed) + ReceiptOf(items, r.value)
      ensures r.Err? ==> printer.printed == old(printer.printed)
    {
      var total :- Calculate(catalog, items);
      total := Apply(promo, total);
      total := ApplyFee(payment, total);
      printer.PrintReceipt(items, total);
      return Ok(total);
    }
  }

  /**
   Processing is repeatable: the processor keeps no state between orders
   that affects the total, so the same order yields the same result twice,
   and a successful order prints its receipt once per call.
   */
  method ProcessTwice(p: OrderProcessor, items: seq<string>) returns (first: Result<int>, second: Result<int>)
    modifies p.printer
    ensures first == second == Checkout(p.promo, p.payment, p.catalog, items)
    ensures first.Ok? ==> p.printer.printed
                            == old(p.printer.printed) + ReceiptOf(items, first.value) + ReceiptOf(items, first.value)
    ensures first.Err? ==> p.printer.printed == old(p.printer.printed)
  {
    first := p.Process(items);
    second := p.Process(items);
  }

  /**
   With the café's menu every successful order costs at least nothing, at
   least its promoted subtotal, and at most its subtotal plus the largest
   payment fee.
   */
  lemma CheckoutBounds(promo: PromotionStrategy, payment: PaymentStrategy, items: seq<string>)
    requires AllKnown(Prices(CafePriceCatalog), items)
    ensures var subtotal := SumPrices(Prices(CafePriceCatalog), items);
            var r := Checkout(promo, payment, CafePriceCatalog, items);
            r.Ok? && 0 <= subtotal
            && 0 <= Apply(promo, subtotal) <= r.value <= subtotal + 1500
  {
    CafePricesPositive();
    SumPricesNonNegative(Prices(CafePriceCatalog), items);
  }

  /** Listing the same names in another order does not change what the order costs. */
  lemma CheckoutPermutation(promo: PromotionStrategy, payment: PaymentStrategy, catalog: PriceCatalog,
                            a: seq<string>, b: seq<string>)
    requires multiset(a) == multiset(b)
    ensures Checkout(promo, payment, catalog, a).Ok? <==> Checkout(promo, payment, catalog, b).Ok?
    ensures Checkout(promo, payment, catalog, a).Ok? ==>
              Checkout(promo, payment, catalog, a) == Checkout(promo, payment, catalog, b)
  {
    if AllKnown(Prices(catalog), a) {
      SumPricesPermutation(Prices(catalog), a, b);
    } else if AllKnown(Prices(catalog), b) {
      SumPricesPermutation(Prices(catalog), b, a);
    }
  }

  /** The first sample order: dine-in promotion, Qris payment. */
  lemma DineInQrisOrder()
    ensures Checkout(DineInPromo, QrisPayment, CafePriceCatalog, ["espresso", "latte", "americano"]) == Ok(73000)
  {
    var items := ["espresso", "latte", "americano"];
    assert AllKnown(Prices(CafePriceCatalog), items);
    var prices := Prices(CafePriceCatalog);
    assert items[..2] == ["espresso", "latte"] && items[..2][..1] == ["espresso"];
    assert ["espresso"][..0] == [];
    assert SumPrices(prices, ["espresso"]) == 20000;
    assert SumPrices(prices, ["espresso", "latte"]) == 50000;
    assert SumPrices(prices, items) == 72000;
  }

  /** The second sample order: three lattes at happy hour, paid in cash. */
  lemma HappyHourCashOrder()
    ensures Checkout(HappyHourPromo, CashPayment, CafePriceCatalog, ["latte", "latte", "latte"]) == Ok(72000)
  {
    SumPricesRepeated(Prices(CafePriceCatalog), "latte", 3);
    assert seq(3, _ => "latte") == ["latte", "latte", "latte"];
  }

  /** The third sample order fails on the dish that is not on the menu. */
  lemma UnknownItemOrder()
    ensures Checkout(TakeAwayPromo, EWalletPayment, CafePriceCatalog, ["americano", "cappuccino", "nasi goreng"])
            == Err(ItemNotFound("nasi goreng"))
  {
  }

  /** Runs the first sample order through a processor and returns its total and receipt. */
  method RunDineInQrisOrder() returns (total: Result<int>, receipt: seq<ReceiptLine>)
    ensures total == Ok(73000)
    ensures receipt == [Header, ItemLine("espresso"), ItemLine("latte"), ItemLine("americano"), TotalLine(73000)]
  {
    var printer := new ReceiptPrinter();
    var processor := new OrderProcessor(DineInPromo, QrisPayment, CafePriceCatalog, printer);
    DineInQrisOrder();
    total := processor.Process(["espresso", "latte", "americano"]);
    receipt := printer.printed;
  }

  /** Runs the second sample order through a processor and returns its total and receipt. */
  method RunHappyHourCashOrder() returns (total: Result<int>, receipt: seq<ReceiptLine>)
    ensures total == Ok(72000)
    ensures receipt == [Header, ItemLine("latte"), ItemLine("latte"), ItemLine("latte"), TotalLine(72000)]
  {
    var printer := new ReceiptPrinter();
    var processor := new OrderProcessor(HappyHourPromo, CashPayment, CafePriceCatalog, printer);
    HappyHourCashOrder();
    total := processor.Process(["latte", "latte", "latte"]);
    receipt := printer.printed;
  }

  /** Runs the third sample order: it fails and prints no receipt. */
  method RunUnknownItemOrder() returns (total: Result<int>, receipt: seq<ReceiptLine>)
    ensures total == Err(ItemNotFound("nasi goreng"))
    ensures receipt == []
  {
    var printer := new ReceiptPrinter();
    var processor := new OrderProcessor(TakeAwayPromo, EWalletPayment, CafePriceCatalog, printer);
    UnknownItemOrder();
    total := processor.Process(["americano", "cappuccino", "nasi goreng"]);
    receipt := printer.printed;
  }
}
