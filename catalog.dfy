/**
 The price catalog of the café: the `Item` record, the fixed name-to-price
 table, the exact-match lookup `GetItem` and the order subtotal `Calculate`.

 A failed lookup is the only error of the whole pipeline; it is modelled by
 the failure-compatible `Result` type below, so that `:-` propagates it the
 way the raised exception escapes every caller.
 */
module Catalog {

  /** A priced menu entry, as produced by a catalog lookup. */
  datatype Item = Item(name: string, price: int)

  /** The single error kind: an ordered name that has no price entry. */
  datatype OrderError = ItemNotFound(name: string)

  datatype Result<T> = Ok(value: T) | Err(error: OrderError) {
    predicate IsFailure() { Err? }

    function PropagateFailure<U>(): Result<U>
      requires Err?
    {
      Err(error)
    }

    function Extract(): T
      requires Ok?
    {
      value
    }
  }

  /** The café's menu: six beverages and their prices in the smallest currency unit. */
  const CafePrices: map<string, int> := map[
    "espresso" := 20000,
    "latte" := 30000,
    "cappuccino" := 28000,
    "americano" := 22000,
    "macchiato" := 32000,
    "dalgona coffe" := 23000
  ]

  /** The catalogs an order processor can be given; the café's is the only one. */
  datatype PriceCatalog = CafePriceCatalog

  /** The price table a catalog looks names up in. */
  function Prices(c: PriceCatalog): map<string, int>
  {
    match c
    case CafePriceCatalog => CafePrices
  }

  /**
   A lookup succeeds exactly for the names that are keys of the table
   (exact, case-sensitive match, no default price), and the item it returns
   carries the table's price for that name.
   */
  function GetItem(c: PriceCatalog, name: string): (r: Result<Item>)
    ensures r.Ok? <==> name in Prices(c)
    ensures r.Ok? ==> r.value.name == name && r.value.price == Prices(c)[name]
    ensures r.Err? ==> r.error == ItemNotFound(name)
  {
    if name !in Prices(c) then Err(ItemNotFound(name))
    else Ok(Item(name, Prices(c)[name]))
  }

  /** Every ordered name has a price entry. */
  predicate AllKnown(prices: map<string, int>, items: seq<string>)
  {
    forall i :: 0 <= i < |items| ==> items[i] in prices
  }

  /** The sum of one price per ordered name, taken over the order from left to right. */
  function SumPrices(prices: map<string, int>, items: seq<string>): int
    requires AllKnown(prices, items)
  {
    if items == [] then 0
    else SumPrices(prices, items[..|items| - 1]) + prices[items[|items| - 1]]
  }

  /** The position of the first ordered name without a price entry. */
  function FirstUnknown(prices: map<string, int>, items: seq<string>): (k: nat)
    requires !AllKnown(prices, items)
    ensures k < |items| && items[k] !in prices
    ensures AllKnown(prices, items[..k])
  {
    if items[0] !in prices then 0
    else
      var k := FirstUnknown(prices, items[1..]);
      assert items[..k + 1] == [items[0]] + items[1..][..k];
      k + 1
  }

  /**
   The loop of the catalog's total as a left fold: `acc` is the running
   total, and the first failed lookup ends the fold with that failure.
   */
  function Tally(c: PriceCatalog, items: seq<string>, acc: int): Result<int>
  {
    if items == [] then Ok(acc)
    else
      var item :- GetItem(c, items[0]);
      Tally(c, items[1..], acc + item.price)
  }

  /** The catalog's total of an order, as the fold defines it. */
  function CatalogTotal(c: PriceCatalog, items: seq<string>): Result<int>
  {
    Tally(c, items, 0)
  }

  /**
   The order's subtotal: one lookup per ordered name, in order, summing their
   prices. The first name without a price aborts the loop, and no partial
   total is returned.
   */
  method Calculate(c: PriceCatalog, items: seq<string>) returns (r: Result<int>)
    ensures r.Ok? <==> AllKnown(Prices(c), items)
    ensures r.Ok? ==> r.value == SumPrices(Prices(c), items)
    ensures r.Err? ==> r.error == ItemNotFound(items[FirstUnknown(Prices(c), items)])
    ensures r == CatalogTotal(c, items)
  {
    TallyCharacterized(c, items, 0);
    var total := 0;
    for i := 0 to |items|
      invariant AllKnown(Prices(c), items[..i])
      invariant total == SumPrices(Prices(c), items[..i])
    {
      if items[i] !in Prices(c) {
        FirstUnknownIsUnique(Prices(c), items, i);
      }
      var item :- GetItem(c, items[i]);
      assert items[..i + 1][..i] == items[..i];
      total := total + item.price;
    }
    assert items[..|items|] == items;
    return Ok(total);
  }

  /** An unknown name preceded only by known names is the first unknown one. */
  lemma FirstUnknownIsUnique(prices: map<string, int>, items: seq<string>, k: nat)
    requires k < |items| && items[k] !in prices
    requires AllKnown(prices, items[..k])
    ensures !AllKnown(prices, items)
    ensures FirstUnknown(prices, items) == k
  {
  }

  /** The subtotal of two orders placed one after the other is the sum of their subtotals. */
  lemma {:induction false} SumPricesAppend(prices: map<string, int>, a: seq<string>, b: seq<string>)
    requires AllKnown(prices, a) && AllKnown(prices, b)
    ensures AllKnown(prices, a + b)
    ensures SumPrices(prices, a + b) == SumPrices(prices, a) + SumPrices(prices, b)
  {
    assert forall i :: 0 <= i < |a + b| ==> (a + b)[i] == if i < |a| then a[i] else b[i - |a|];
    if b == [] {
      assert a + b == a;
    } else {
      var b' := b[..|b| - 1];
      assert AllKnown(prices, b') by {
        assert forall i :: 0 <= i < |b'| ==> b'[i] == b[i];
      }
      SumPricesAppend(prices, a, b');
      assert (a + b)[..|a + b| - 1] == a + b';
    }
  }

  /** The subtotal starts with the price of the first ordered name. */
  lemma SumPricesCons(prices: map<string, int>, name: string, rest: seq<string>)
    requires name in prices && AllKnown(prices, rest)
    ensures AllKnown(prices, [name] + rest)
    ensures SumPrices(prices, [name] + rest) == prices[name] + SumPrices(prices, rest)
  {
    assert AllKnown(prices, [name]);
    assert [name][..0] == [];
    SumPricesAppend(prices, [name], rest);
  }

  /**
   The fold agrees with the sum: it succeeds exactly when every name is
   known, it then adds the subtotal to the running total, and otherwise it
   fails on the first unknown name.
   */
  lemma {:induction false} TallyCharacterized(c: PriceCatalog, items: seq<string>, acc: int)
    ensures Tally(c, items, acc).Ok? <==> AllKnown(Prices(c), items)
    ensures Tally(c, items, acc).Ok? ==>
              Tally(c, items, acc).value == acc + SumPrices(Prices(c), items)
    ensures Tally(c, items, acc).Err? ==>
              Tally(c, items, acc).error == ItemNotFound(items[FirstUnknown(Prices(c), items)])
  {
    var prices := Prices(c);
    if items != [] {
      var rest := items[1..];
      assert items == [items[0]] + rest;
      if items[0] in prices {
        TallyCharacterized(c, rest, acc + prices[items[0]]);
        if AllKnown(prices, rest) {
          SumPricesCons(prices, items[0], rest);
        } else {
          assert !AllKnown(prices, items) by {
            var k := FirstUnknown(prices, rest);
            assert items[k + 1] == rest[k];
          }
          var k := FirstUnknown(prices, rest);
          assert items[..k + 1] == [items[0]] + rest[..k];
          FirstUnknownIsUnique(prices, items, k + 1);
        }
      } else {
        FirstUnknownIsUnique(prices, items, 0);
      }
    }
  }

  /** Ordering the same name k times costs k times its price: duplicates are counted. */
  lemma {:induction false} SumPricesRepeated(prices: map<string, int>, name: string, k: nat)
    requires name in prices
    ensures AllKnown(prices, seq(k, _ => name))
    ensures SumPrices(prices, seq(k, _ => name)) == k * prices[name]
  {
    if k > 0 {
      SumPricesRepeated(prices, name, k - 1);
      assert seq(k, _ => name)[..k - 1] == seq(k - 1, _ => name);
    }
  }

  /** Reordering an order keeps every name in it, so it keeps every name known. */
  lemma AllKnownPermutation(prices: map<string, int>, a: seq<string>, b: seq<string>)
    requires AllKnown(prices, a)
    requires multiset(a) == multiset(b)
    ensures AllKnown(prices, b)
  {
    forall i | 0 <= i < |b| ensures b[i] in prices {
      assert b[i] in multiset(a);
    }
  }

  /** Taking one name out of an order takes exactly its price off the subtotal. */
  lemma SumPricesRemove(prices: map<string, int>, b: seq<string>, j: nat)
    requires AllKnown(prices, b) && j < |b|
    ensures AllKnown(prices, b[..j] + b[j + 1..])
    ensures SumPrices(prices, b) == SumPrices(prices, b[..j] + b[j + 1..]) + prices[b[j]]
  {
    var front, back := b[..j], b[j + 1..];
    assert forall i :: 0 <= i < |front| ==> front[i] == b[i];
    assert forall i :: 0 <= i < |back| ==> back[i] == b[j + 1 + i];
    assert b == front + [b[j]] + back;
    assert AllKnown(prices, [b[j]]) && [b[j]][..0] == [];
    SumPricesAppend(prices, front, back);
    SumPricesAppend(prices, front, [b[j]]);
    SumPricesAppend(prices, front + [b[j]], back);
  }

  /** The subtotal does not depend on the order in which the names are listed. */
  lemma {:induction false} SumPricesPermutation(prices: map<string, int>, a: seq<string>, b: seq<string>)
    requires AllKnown(prices, a)
    requires multiset(a) == multiset(b)
    ensures AllKnown(prices, b)
    ensures SumPrices(prices, a) == SumPrices(prices, b)
    decreases |a|
  {
    AllKnownPermutation(prices, a, b);
    if a == [] {
      assert |b| == |multiset(b)| == 0;
    } else {
      var last := a[|a| - 1];
      var a' := a[..|a| - 1];
      assert a == a' + [last];
      assert last in multiset(b);
      var j :| 0 <= j < |b| && b[j] == last;
      var b' := b[..j] + b[j + 1..];
      assert b == b[..j] + [last] + b[j + 1..];
      assert multiset(a') == multiset(a) - multiset{last};
      assert multiset(b') == multiset(b) - multiset{last};
      SumPricesPermutation(prices, a', b');
      SumPricesRemove(prices, b, j);
    }
  }

  /** With no negative price in the table, no order has a negative subtotal. */
  lemma {:induction false} SumPricesNonNegative(prices: map<string, int>, items: seq<string>)
    requires AllKnown(prices, items)
    requires forall n :: n in prices ==> prices[n] >= 0
    ensures SumPrices(prices, items) >= 0
    ensures items == [] ==> SumPrices(prices, items) == 0
  {
    if items != [] {
      SumPricesNonNegative(prices, items[..|items| - 1]);
    }
  }

  /** Every price on the café's menu is positive. */
  lemma CafePricesPositive()
    ensures forall n :: n in Prices(CafePriceCatalog) ==> Prices(CafePriceCatalog)[n] > 0
  {
  }

  /** Lookup is exact: a capitalised name or a dish that is not a beverage on the menu is not found. */
  lemma GetItemExactMatch()
    ensures GetItem(CafePriceCatalog, "latte") == Ok(Item("latte", 30000))
    ensures GetItem(CafePriceCatalog, "Latte") == Err(ItemNotFound("Latte"))
    ensures GetItem(CafePriceCatalog, "nasi goreng") == Err(ItemNotFound("nasi goreng"))
  {
  }
}
