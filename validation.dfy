/** The form's `validate` (components/InvoiceForm.tsx): it collects one message per
    broken rule into a record keyed by field name, and the form is valid exactly when
    that record is empty. */
module Validation {
  import opened JsText
  import opened LineItems

  /** The fields a message can be attached to; the per-line keys carry the line's index. */
  datatype ErrorKey =
    | ClientKey | BusinessKey | DueDateKey | ItemsKey
    | ItemNameKey(idx: nat) | ItemQtyKey(idx: nat) | ItemPriceKey(idx: nat)

  /** The property name the message is stored under: `client`, …, `item-${idx}`,
      `item-qty-${idx}`, `item-price-${idx}`. */
  function KeyName(k: ErrorKey): string
  {
    match k
    case ClientKey => "client"
    case BusinessKey => "business"
    case DueDateKey => "dueDate"
    case ItemsKey => "items"
    case ItemNameKey(i) => "item-" + NatToString(i)
    case ItemQtyKey(i) => "item-qty-" + NatToString(i)
    case ItemPriceKey(i) => "item-price-" + NatToString(i)
  }

  /** The message shown beside the field. */
  function Message(k: ErrorKey): string
  {
    match k
    case ClientKey => "Nama klien wajib diisi"
    case BusinessKey => "Nama bisnis wajib diisi"
    case DueDateKey => "Pilih tanggal jatuh tempo"
    case ItemsKey => "Tambahkan minimal 1 item"
    case ItemNameKey(_) => "Nama item wajib"
    case ItemQtyKey(_) => "Kuantitas minimal 1"
    case ItemPriceKey(_) => "Harga tidak boleh negatif"
  }

  /** The first characters after "item-": a digit for a name key, 'q' or 'p' otherwise. */
  lemma ItemKeyShape(k: ErrorKey)
    requires k.ItemNameKey? || k.ItemQtyKey? || k.ItemPriceKey?
    ensures var s := KeyName(k);
            |s| >= 6 && s[..5] == "item-"
            && (k.ItemNameKey? ==> IsDigit(s[5]) && s[5..] == NatToString(k.idx))
            && (k.ItemQtyKey? ==> s[5] == 'q' && s[9..] == NatToString(k.idx))
            && (k.ItemPriceKey? ==> s[5] == 'p' && s[11..] == NatToString(k.idx))
  {
  }

  /** No two keys share a property name, so the record holds one entry per key. */
  lemma KeyNameInjective(a: ErrorKey, b: ErrorKey)
    ensures KeyName(a) == KeyName(b) ==> a == b
  {
    if KeyName(a) == KeyName(b) {
      var s := KeyName(a);
      if a.ItemNameKey? || a.ItemQtyKey? || a.ItemPriceKey? {
        ItemKeyShape(a);
        if b.ItemNameKey? || b.ItemQtyKey? || b.ItemPriceKey? {
          ItemKeyShape(b);
          NatToStringInjective(a.idx, b.idx);
        }
      } else if b.ItemNameKey? || b.ItemQtyKey? || b.ItemPriceKey? {
        ItemKeyShape(b);
      }
    }
  }

  lemma KeyNamesDistinct()
    ensures forall a, b :: KeyName(a) == KeyName(b) ==> a == b
  {
    forall a, b ensures KeyName(a) == KeyName(b) ==> a == b {
      KeyNameInjective(a, b);
    }
  }

  /** The rule behind each key: `!client.trim()`, `!business.trim()`, `!dueDate`,
      `items.length === 0`, and per line `!it.name?.trim()`, `it.qty <= 0`, `it.price < 0`. */
  predicate Fails(k: ErrorKey, client: string, business: string, dueDate: string, items: seq<Item>)
  {
    match k
    case ClientKey => IsBlank(client)
    case BusinessKey => IsBlank(business)
    case DueDateKey => dueDate == ""
    case ItemsKey => |items| == 0
    case ItemNameKey(i) => i < |items| && IsBlank(items[i].name)
    case ItemQtyKey(i) => i < |items| && items[i].qty <= 0
    case ItemPriceKey(i) => i < |items| && items[i].price < 0.0
  }

  /** Every rule of the form holds. */
  predicate Passes(client: string, business: string, dueDate: string, items: seq<Item>)
  {
    !IsBlank(client) && !IsBlank(business) && dueDate != "" && |items| > 0
    && forall i :: 0 <= i < |items| ==>
         !IsBlank(items[i].name) && items[i].qty > 0 && items[i].price >= 0.0
  }

  /** The record `e` holds the keys in K, each with its message, and nothing else. */
  ghost predicate Holds(e: map<string, string>, K: set<ErrorKey>)
  {
    (forall k :: KeyName(k) in e <==> k in K)
    && (forall k :: k in K ==> e[KeyName(k)] == Message(k))
    && (forall s :: s in e ==> exists k :: KeyName(k) == s)
  }

  /** `e` is the record `validate` builds for these fields: an entry exactly for each
      broken rule, with that rule's message, and no other entries. */
  ghost predicate Reports(e: map<string, string>, client: string, business: string, dueDate: string,
                    items: seq<Item>)
  {
    (forall k :: KeyName(k) in e <==> Fails(k, client, business, dueDate, items))
    && (forall k :: KeyName(k) in e ==> e[KeyName(k)] == Message(k))
    && (forall s :: s in e ==> exists k :: KeyName(k) == s)
  }

  /** Whether the per-line rule of key k has been looked at once the loop has reached line n. */
  predicate Visited(k: ErrorKey, n: nat)
  {
    match k
    case ItemNameKey(i) => i < n
    case ItemQtyKey(i) => i < n
    case ItemPriceKey(i) => i < n
    case _ => true
  }

  /** Setting `e[KeyName(k)] = Message(k)` adds k to the keys the record holds. */
  lemma AddKey(e: map<string, string>, K: set<ErrorKey>, k: ErrorKey)
    requires Holds(e, K)
    ensures Holds(e[KeyName(k) := Message(k)], K + {k})
  {
    KeyNamesDistinct();
    var e' := e[KeyName(k) := Message(k)];
    forall s | s in e' ensures exists k' :: KeyName(k') == s {
      if s == KeyName(k) {
        assert KeyName(k) == s;
      }
    }
  }

  /** The record is empty exactly when every rule holds. */
  lemma {:induction false} ReportsEmptyIffPasses(e: map<string, string>, client: string,
                                                 business: string, dueDate: string, items: seq<Item>)
    requires Reports(e, client, business, dueDate, items)
    ensures e == map[] <==> Passes(client, business, dueDate, items)
  {
    if Passes(client, business, dueDate, items) {
      forall s | s in e ensures false {
      }
      assert e.Keys == {};
    } else {
      var k: ErrorKey;
      if IsBlank(client) {
        k := ClientKey;
      } else if IsBlank(business) {
        k := BusinessKey;
      } else if dueDate == "" {
        k := DueDateKey;
      } else if |items| == 0 {
        k := ItemsKey;
      } else {
        var i :| 0 <= i < |items|
                 && !(!IsBlank(items[i].name) && items[i].qty > 0 && items[i].price >= 0.0);
        k := if IsBlank(items[i].name) then ItemNameKey(i)
             else if items[i].qty <= 0 then ItemQtyKey(i) else ItemPriceKey(i);
      }
      assert Fails(k, client, business, dueDate, items);
      assert KeyName(k) in e;
    }
  }

  /** Two records that both report the same fields are the same record. */
  lemma {:induction false} ReportsUnique(e1: map<string, string>, e2: map<string, string>,
                                         client: string, business: string, dueDate: string,
                                         items: seq<Item>)
    requires Reports(e1, client, business, dueDate, items)
    requires Reports(e2, client, business, dueDate, items)
    ensures e1 == e2
  {
    forall s | s in e1 ensures s in e2 && e1[s] == e2[s] {
      var k :| KeyName(k) == s;
    }
    forall s | s in e2 ensures s in e1 {
      var k :| KeyName(k) == s;
    }
  }

  /** The header rules that fail. */
  ghost function HeaderKeys(client: string, business: string, dueDate: string, items: seq<Item>)
    : set<ErrorKey>
  {
    (if IsBlank(client) then {ClientKey} else {})
    + (if IsBlank(business) then {BusinessKey} else {})
    + (if dueDate == "" then {DueDateKey} else {})
    + (if |items| == 0 then {ItemsKey} else {})
  }

  /** The rules of line idx that fail. */
  ghost function RowKeys(it: Item, idx: nat): set<ErrorKey>
  {
    (if IsBlank(it.name) then {ItemNameKey(idx)} else {})
    + (if it.qty <= 0 then {ItemQtyKey(idx)} else {})
    + (if it.price < 0.0 then {ItemPriceKey(idx)} else {})
  }

  /** Before the loop, the failing header rules are exactly the failing rules visited so far. */
  lemma HeaderVisited(client: string, business: string, dueDate: string, items: seq<Item>)
    ensures forall k :: k in HeaderKeys(client, business, dueDate, items)
                        <==> Fails(k, client, business, dueDate, items) && Visited(k, 0)
  {
  }

  /** Checking line idx adds that line's failing rules to the visited ones. */
  lemma RowVisited(K: set<ErrorKey>, client: string, business: string, dueDate: string,
                   items: seq<Item>, idx: nat)
    requires idx < |items|
    requires forall k :: k in K <==> Fails(k, client, business, dueDate, items) && Visited(k, idx)
    ensures forall k :: k in K + RowKeys(items[idx], idx)
                        <==> Fails(k, client, business, dueDate, items) && Visited(k, idx + 1)
  {
  }

  /** The header checks of `validate`: a message for a blank client, a blank business,
      a missing due date and an empty list. */
  method CheckHeader(client: string, business: string, dueDate: string, items: seq<Item>)
    returns (e: map<string, string>)
    ensures Holds(e, HeaderKeys(client, business, dueDate, items))
  {
    e := map[];
    ghost var K: set<ErrorKey> := {};
    if IsBlank(client) {
      AddKey(e, K, ClientKey);
      e, K := e["client" := "Nama klien wajib diisi"], K + {ClientKey};
    }
    if IsBlank(business) {
      AddKey(e, K, BusinessKey);
      e, K := e["business" := "Nama bisnis wajib diisi"], K + {BusinessKey};
    }
    if dueDate == "" {
      AddKey(e, K, DueDateKey);
      e, K := e["dueDate" := "Pilih tanggal jatuh tempo"], K + {DueDateKey};
    }
    if |items| == 0 {
      AddKey(e, K, ItemsKey);
      e, K := e["items" := "Tambahkan minimal 1 item"], K + {ItemsKey};
    }
  }

  /** The body of the `forEach` over the lines: a message for a blank name, a quantity
      of 0 or less and a negative price of line idx. */
  method CheckLine(e0: map<string, string>, ghost K: set<ErrorKey>, it: Item, idx: nat)
    returns (e: map<string, string>)
    requires Holds(e0, K)
    ensures Holds(e, K + RowKeys(it, idx))
  {
    e := e0;
    ghost var row: set<ErrorKey> := {};
    if IsBlank(it.name) {
      AddKey(e, K + row, ItemNameKey(idx));
      e, row := e["item-" + NatToString(idx) := "Nama item wajib"], row + {ItemNameKey(idx)};
    }
    if it.qty <= 0 {
      AddKey(e, K + row, ItemQtyKey(idx));
      e, row := e["item-qty-" + NatToString(idx) := "Kuantitas minimal 1"], row + {ItemQtyKey(idx)};
    }
    if it.price < 0.0 {
      AddKey(e, K + row, ItemPriceKey(idx));
      e, row := e["item-price-" + NatToString(idx) := "Harga tidak boleh negatif"], row + {ItemPriceKey(idx)};
    }
    assert row == RowKeys(it, idx);
  }

  /** `validate`'s record: the header checks, then every line in order. */
  method CollectErrors(client: string, business: string, dueDate: string, items: seq<Item>)
    returns (e: map<string, string>)
    ensures Reports(e, client, business, dueDate, items)
    ensures e == map[] <==> Passes(client, business, dueDate, items)
  {
    e := CheckHeader(client, business, dueDate, items);
    ghost var K := HeaderKeys(client, business, dueDate, items);
    HeaderVisited(client, business, dueDate, items);
    var idx := 0;
    while idx < |items|
      invariant 0 <= idx <= |items|
      invariant Holds(e, K)
      invariant forall k :: k in K <==> Fails(k, client, business, dueDate, items) && Visited(k, idx)
    {
      e := CheckLine(e, K, items[idx], idx);
      RowVisited(K, client, business, dueDate, items, idx);
      K := K + RowKeys(items[idx], idx);
      idx := idx + 1;
    }
    ReportsEmptyIffPasses(e, client, business, dueDate, items);
  }

  /** The record for a freshly reset form: no client, no business, no due date and
      one blank line. */
  lemma ResetFormReport(e: map<string, string>)
    requires Reports(e, "", "", "", [DefaultItem])
    ensures e.Keys == {"client", "business", "dueDate", "item-0"}
  {
    assert KeyName(ClientKey) in e && KeyName(BusinessKey) in e && KeyName(DueDateKey) in e;
    assert KeyName(ItemNameKey(0)) == "item-0";
    assert Fails(ItemNameKey(0), "", "", "", [DefaultItem]);
    forall s | s in e ensures s in {"client", "business", "dueDate", "item-0"} {
      var k :| KeyName(k) == s;
      assert Fails(k, "", "", "", [DefaultItem]);
    }
  }
}
