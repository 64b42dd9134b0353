/**
 The receipt: a header, one line per ordered name (names only, no prices),
 then the final total. The printer's output channel is modelled as the
 sequence of lines it has emitted so far; the wording of each line is not.
 */
module Receipt {

  datatype ReceiptLine = Header | ItemLine(name: string) | TotalLine(total: int)

  /** One item line per ordered name, in the order given. */
  function ItemLines(items: seq<string>): (lines: seq<ReceiptLine>)
    ensures |lines| == |items|
    ensures forall i :: 0 <= i < |items| ==> lines[i] == ItemLine(items[i])
  {
    if items == [] then []
    else ItemLines(items[..|items| - 1]) + [ItemLine(items[|items| - 1])]
  }

  /** The lines of one receipt; an empty order still gets its header and total. */
  function ReceiptOf(items: seq<string>, total: int): (lines: seq<ReceiptLine>)
    ensures |lines| == |items| + 2
    ensures lines[0] == Header && lines[|lines| - 1] == TotalLine(total)
    ensures forall i :: 0 <= i < |items| ==> lines[i + 1] == ItemLine(items[i])
  {
    [Header] + ItemLines(items) + [TotalLine(total)]
  }

  /** Extending the printed prefix of the order by one name adds that name's line. */
  lemma ItemLinesSnoc(items: seq<string>, i: nat)
    requires i < |items|
    ensures ItemLines(items[..i + 1]) == ItemLines(items[..i]) + [ItemLine(items[i])]
  {
  }

  class ReceiptPrinter {
    /** Every line this printer has emitted, oldest first. */
    var printed: seq<ReceiptLine>

    constructor ()
      ensures printed == []
    {
      printed := [];
    }

    /** Emits the header, then each ordered name, then the total. */
    method PrintReceipt(items: seq<string>, total: int)
      modifies this
      ensures printed == old(printed) + ReceiptOf(items, total)
    {
      printed := printed + [Header];
      ghost var start := printed;
      for i := 0 to |items|
        invariant printed == start + ItemLines(items[..i])
      {
        ItemLinesSnoc(items, i);
        assert start + ItemLines(items[..i + 1]) == start + ItemLines(items[..i]) + [ItemLine(items[i])];
        printed := printed + [ItemLine(items[i])];
      }
      assert items[..|items|] == items;
      printed := printed + [TotalLine(total)];
      assert printed == old(printed) + ([Header] + ItemLines(items) + [TotalLine(total)]);
    }
  }
}
