/** The ordered list of invoice lines and the edits the form makes to it
    (components/InvoiceForm.tsx: handleItemChange, addItem, removeItem). */
module LineItems {

  /** One invoice line `{ name, qty, unit, price }`; the price is an exact real. */
  datatype Item = Item(name: string, qty: int, unit: string, price: real)

  /** The blank line the form starts with and appends. */
  const DefaultItem := Item("", 1, "", 0.0)

  /** What JavaScript's `Number(value)` makes of an edited input: NaN or a finite number. */
  datatype Num = NaN | Finite(r: real)

  /** The editable fields of a line (`keyof Item`). */
  datatype Field = Name | Qty | Unit | Price

  /** An edited input as the two coercions the form applies see it:
      `String(value)` and `Number(value)`. */
  datatype Value = Value(text: string, number: Num)

  /** `Number(value) || 0`: NaN, being falsy, becomes 0. */
  function NumberOrZero(n: Num): real
  {
    match n
    case NaN => 0.0
    case Finite(r) => r
  }

  /** `Math.max(0, Math.floor(Number(value) || 0))`: the largest whole number not above
      the input, and 0 when that would be negative. */
  function QuantityOf(n: Num): (q: int)
    ensures q >= 0
    ensures q == 0 || q as real <= NumberOrZero(n)
    ensures NumberOrZero(n) < (q + 1) as real
  {
    var f := NumberOrZero(n).Floor;
    if f > 0 then f else 0
  }

  /** `[...items, { name: "", qty: 1, unit: "", price: 0 }]` */
  function AddItem(items: seq<Item>): (r: seq<Item>)
    ensures |r| == |items| + 1
    ensures r[..|items|] == items && r[|items|] == DefaultItem
  {
    items + [DefaultItem]
  }

  /** `items.filter((_, i) => i !== index)`, walking the list by position. */
  function RemoveItem(items: seq<Item>, index: int): (r: seq<Item>)
    ensures |r| == if 0 <= index < |items| then |items| - 1 else |items|
    decreases |items|
  {
    if items == [] then []
    else
      var last := |items| - 1;
      RemoveItem(items[..last], index) + (if last != index then [items[last]] else [])
  }

  /** Filtering out position `index` cuts exactly that element out and keeps the rest in
      order; an index outside the list removes nothing. */
  lemma {:induction false} RemoveItemSplices(items: seq<Item>, index: int)
    ensures RemoveItem(items, index)
            == if 0 <= index < |items| then items[..index] + items[index + 1..] else items
    decreases |items|
  {
    if items != [] {
      var last := |items| - 1;
      var front := items[..last];
      RemoveItemSplices(front, index);
      if 0 <= index < last {
        assert front[..index] == items[..index];
        assert front[index + 1..] + [items[last]] == items[index + 1..];
      } else if index == last {
        assert front == items[..index];
        assert items[index + 1..] == [];
      } else {
        assert front + [items[last]] == items;
      }
    }
  }

  /** Removing the line just added gives the list back. */
  lemma RemoveAddedItem(items: seq<Item>)
    ensures RemoveItem(AddItem(items), |items|) == items
  {
    RemoveItemSplices(AddItem(items), |items|);
    assert AddItem(items)[..|items|] == items;
  }
}
