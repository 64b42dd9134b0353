# Café order pipeline, modelled in Dafny

This project models a small café point-of-sale pipeline. An order is a list of beverage names. The pipeline:

1. looks each name up in a fixed price catalog and sums one price per ordered name;
2. applies one promotion (dine-in, take-away or happy hour);
3. adds the flat fee of one payment method (cash, Qris or e-wallet);
4. prints a receipt and returns the final total.

A name that is not on the menu aborts the order in step 1. No later step runs.

Modules, one per component of `Studi_kasus_refactor.py`:

- `Catalog` (`catalog.dfy`) holds the following:
  - `Item`, the menu table `CafePrices` and the catalog variant `CafePriceCatalog`;
  - the lookup `GetItem` and the subtotal loop `Calculate`;
  - the specification functions `AllKnown`, `SumPrices` and `FirstUnknown`;
  - the exception-propagating fold `Tally`;
  - and lemmas about the subtotal. It is additive, it counts duplicates, it ignores the order of names and it is non-negative.
- `Promotion` (`promotion.dfy`): the three promotion strategies as a datatype with the dispatch function `Apply`.
- `Payment` (`payment.dfy`): the three payment strategies as a datatype with the dispatch function `ApplyFee`.
- `Receipt` (`receipt.dfy`): the receipt as a sequence of lines, and `ReceiptPrinter`, a class whose `printed` field is the output channel it appends to.
- `OrderProcessing` (`order_processor.dfy`) holds the following:
  - the pure specification `Checkout` of one order;
  - the class `OrderProcessor`, with four injected `const` collaborators and the method `Process`;
  - and lemmas and client methods for the three sample orders of the driver.

Abstract base classes become datatypes with a dispatch function, one constructor per concrete subclass. The exception raised by `get_item` becomes the failure-compatible `Result` type, and `:-` propagates it. This gives in both `Calculate` and `Process` the early exit that the uncaught exception gives in the source. `Process` specifies more than the source states. A failed order leaves the printer's output unchanged. A successful order appends exactly one receipt.

Two points follow the code's arithmetic directly:
- The `Item` record has no rule on its name or price, so `Item.price` is an unconstrained `int`. `CheckoutBounds` derives a non-negative subtotal from the café's table: every price is positive (`CafePricesPositive`), so every subtotal is at least 0 (`SumPricesNonNegative`).
- No promotion is documented to raise a total. Yet `int(total * 0.2)` truncates toward zero, so happy hour raises a negative total (-7 becomes -6). `Apply` promises `r <= total` for every total only for the two flat-rate promotions, and for all three when the total is non-negative.

## Model

| member | source | states |
|---|---|---|
| `Catalog.GetItem` | Studi_kasus_refactor.py:98-118 | a lookup succeeds exactly when the name is a key of the table (exact, case-sensitive); on success the item has that name and the table's price; otherwise it fails with ItemNotFound for that name |
| `Catalog.GetItemExactMatch` | Studi_kasus_refactor.py:112-118 | "latte" is found at 30000; "Latte" and "nasi goreng" are not found |
| `Catalog.CafePricesPositive` | Studi_kasus_refactor.py:89-96 | every price on the café's menu is positive |
| `Catalog.FirstUnknown` | Studi_kasus_refactor.py:131-133 | in an order with an unknown name, the position it returns holds an unknown name and every earlier name is known |
| `Catalog.FirstUnknownIsUnique` | Studi_kasus_refactor.py:131-133 | an unknown name preceded only by known names is the one the loop stops at |
| `Catalog.Calculate` | Studi_kasus_refactor.py:120-135 | the subtotal loop succeeds exactly when every name is known; it then returns the sum of one price per occurrence; otherwise it fails on the first unknown name with no partial total; it agrees with the fold `CatalogTotal` |
| `Catalog.TallyCharacterized` | Studi_kasus_refactor.py:130-135 | the fold that stops at the first failed lookup succeeds exactly when all names are known, then adds the subtotal to the running total, and otherwise reports the first unknown name |
| `Catalog.SumPricesAppend` | Studi_kasus_refactor.py:130-135 | the subtotal of two orders placed one after the other is the sum of their subtotals |
| `Catalog.SumPricesCons` | Studi_kasus_refactor.py:131-133 | the subtotal is the first name's price plus the subtotal of the rest |
| `Catalog.SumPricesRepeated` | Studi_kasus_refactor.py:131-133 | ordering one name k times costs k times its price (duplicates counted) |
| `Catalog.SumPricesPermutation` | Studi_kasus_refactor.py:130-135 | any reordering of an all-known order is all-known and has the same subtotal |
| `Catalog.SumPricesNonNegative` | Studi_kasus_refactor.py:130-135 | with no negative price in the table, every subtotal is non-negative; the empty order gives 0 |
| `Promotion.HappyHourDiscount` | Studi_kasus_refactor.py:247-248 | the discount is a fifth of the total truncated toward zero: floor for non-negative totals, ceiling for negative ones |
| `Promotion.Apply` | Studi_kasus_refactor.py:175-253 | a promotion keeps a non-negative total between 0 and itself; dine-in and take-away never raise any total |
| `Promotion.DineInRule` | Studi_kasus_refactor.py:186-195 | dine-in lowers the total exactly when it is strictly above 100000, and then by exactly 10000 |
| `Promotion.TakeAwayRule` | Studi_kasus_refactor.py:217-226 | take-away lowers the total exactly when it is strictly above 80000, and then by exactly 5000 |
| `Promotion.ThresholdBoundaries` | Studi_kasus_refactor.py:186-226 | 100000 stays 100000 and 100001 becomes 90001 under dine-in; 80000 stays 80000 and 80001 becomes 75001 under take-away |
| `Promotion.FlatPromotionsNotMonotone` | Studi_kasus_refactor.py:186-226 | one unit above either threshold costs less than the threshold itself |
| `Promotion.HappyHourKeepsFourFifths` | Studi_kasus_refactor.py:247-249 | for a non-negative total, happy hour leaves four fifths rounded up: 4t <= 5r < 4t + 5 |
| `Promotion.HappyHourMonotone` | Studi_kasus_refactor.py:247-249 | a larger non-negative total never costs less after happy hour |
| `Promotion.HappyHourExample` | Studi_kasus_refactor.py:247-253 | 90000 becomes 72000; 7 becomes 6; -7 becomes -6 |
| `Payment.Fee` | Studi_kasus_refactor.py:293-359 | every fee is between 0 and 1500, and only cash has no fee |
| `Payment.ApplyFee` | Studi_kasus_refactor.py:293-359 | paying never lowers the total or adds more than 1500, and leaves it unchanged exactly for cash |
| `Payment.FeeRules` | Studi_kasus_refactor.py:305-359 | cash is the identity, Qris adds 1000, e-wallet adds 1500 |
| `Payment.FeeIsFlat` | Studi_kasus_refactor.py:293-359 | fees are flat amounts: shifting the total shifts the amount to pay by the same amount |
| `Receipt.ItemLines` | Studi_kasus_refactor.py:382-383 | one line per ordered name, in order |
| `Receipt.ReceiptOf` | Studi_kasus_refactor.py:381-384 | a receipt has the header first, one line per name in order, then the total: `|items| + 2` lines, also for an empty order |
| `Receipt.ReceiptPrinter.PrintReceipt` | Studi_kasus_refactor.py:372-384 | printing appends exactly that receipt to the output channel |
| `OrderProcessing.Checkout` | Studi_kasus_refactor.py:447-451 | an order succeeds exactly when every name is known, with the payment fee applied to the promotion applied to the subtotal; otherwise it fails on the first unknown name |
| `OrderProcessing.OrderProcessor.constructor` | Studi_kasus_refactor.py:402-430 | the four collaborators are the ones injected, and as constants they are never replaced |
| `OrderProcessing.OrderProcessor.Process` | Studi_kasus_refactor.py:432-451 | the result is `Checkout` of the injected strategies; a failed order prints nothing; a successful one prints exactly its receipt with the final total |
| `OrderProcessing.ProcessTwice` | Studi_kasus_refactor.py:447-451 | processing the same order twice gives the same result both times |
| `OrderProcessing.CheckoutBounds` | Studi_kasus_refactor.py:447-451 | with the café's menu, a successful order's total is at least its promoted subtotal (which is at least 0) and at most its subtotal plus 1500 |
| `OrderProcessing.CheckoutPermutation` | Studi_kasus_refactor.py:447-451 | reordering the names does not change whether the order succeeds, nor its total when it does |
| `OrderProcessing.DineInQrisOrder` | Studi_kasus_refactor.py:457-463 | espresso, latte and americano under dine-in and Qris cost 73000 |
| `OrderProcessing.HappyHourCashOrder` | Studi_kasus_refactor.py:466-472 | three lattes under happy hour and cash cost 72000 |
| `OrderProcessing.UnknownItemOrder` | Studi_kasus_refactor.py:477-483 | americano, cappuccino and nasi goreng under take-away and e-wallet fail on "nasi goreng" |
| `OrderProcessing.RunDineInQrisOrder` | Studi_kasus_refactor.py:457-463 | a processor built as in the first sample returns 73000 and prints header, three names, total |
| `OrderProcessing.RunHappyHourCashOrder` | Studi_kasus_refactor.py:466-472 | a processor built as in the second sample returns 72000 and prints header, three lattes, total |
| `OrderProcessing.RunUnknownItemOrder` | Studi_kasus_refactor.py:477-483 | a processor built as in the third sample fails on "nasi goreng" and prints no receipt |

## Left out

- Logging configuration and every logger call (lines 3, 9-18 and the info/error calls throughout) are left out. They emit text and do not affect any result.
- Receipt wording is left out: labels, spacing and the " -" suffix of the receipt lines (lines 381-384). A receipt is modelled as abstract header, item and total lines.
- The raised error's message text (line 114) is left out. `ItemNotFound` instead carries the unknown name, which the source reports only in its log line (line 113).
- Python's abstract base classes (lines 31-72, 139-164, 257-283) are left out. Each capability is a closed datatype with one constructor per concrete class. A new catalog, promotion or payment method is added as a new constructor, not as a new subclass.
- `Promotion.HappyHourDiscount` does not model IEEE double arithmetic in `int(total * 0.2)`. It computes the exact fifth of the total, truncated toward zero. This assumes the double product truncates to the same integer. That holds for totals of magnitude below 10^15, far above any café order.
- The module-level sample driver and its `print` calls (lines 454-483) are left out. Its three orders appear only as the lemmas and client methods named in the table.
- `OrderProcessing.CheckoutPermutation` does not claim that two reorderings of a failing order fail on the same name: the first unknown name depends on the order.
- The model does not let the four collaborators of `OrderProcessor` be reassigned after construction. In Python they are ordinary attributes, but no code in the source reassigns them.
