/**
 * The stored cart and the add-to-cart update that four views share: find the
 * first line with the product's id; if there is one, raise its quantity by one,
 * otherwise push a snapshot of the product with quantity one; write the list back
 * under the key `'cart'`.
 */
module Cart {
  import opened Wrappers
  import opened ShopData

  /** A cart entry as stored: a copy of the product's fields taken when it was first added, and a count. */
  datatype CartLine = CartLine(id: int, name: string, usdCents: int, image: string, quantity: int)

  /** The line pushed for a product that is not in the cart yet. */
  function Snapshot(p: Product): CartLine
  {
    CartLine(p.id, p.name, p.usdCents, p.image, 1)
  }

  /** The same line, one more of it. */
  function Bump(line: CartLine): CartLine
  {
    line.(quantity := line.quantity + 1)
  }

  /**
   * Reference definition of one add: walking the lines in order, the first line
   * with the product's id is bumped and the walk stops; if none has it, a
   * snapshot goes at the end.
   */
  function AddLine(cart: seq<CartLine>, p: Product): seq<CartLine>
  {
    if cart == [] then [Snapshot(p)]
    else if cart[0].id == p.id then [Bump(cart[0])] + cart[1..]
    else [cart[0]] + AddLine(cart[1..], p)
  }

  /** When line `k` is the first with the product's id, it alone is bumped: same length, same order. */
  lemma {:induction false} AddLineExisting(cart: seq<CartLine>, p: Product, k: nat)
    requires k < |cart| && cart[k].id == p.id
    requires forall j :: 0 <= j < k ==> cart[j].id != p.id
    ensures AddLine(cart, p) == cart[k := Bump(cart[k])]
  {
    if k > 0 {
      AddLineExisting(cart[1..], p, k - 1);
      assert cart[k := Bump(cart[k])] == [cart[0]] + cart[1..][k - 1 := Bump(cart[k])];
    }
  }

  /** When no line has the product's id, exactly one snapshot line is appended at the end. */
  lemma {:induction false} AddLineNew(cart: seq<CartLine>, p: Product)
    requires forall j :: 0 <= j < |cart| ==> cart[j].id != p.id
    ensures AddLine(cart, p) == cart + [Snapshot(p)]
  {
    if cart != [] {
      AddLineNew(cart[1..], p);
      assert cart == [cart[0]] + cart[1..];
    }
  }

  /** Sum of all quantities. */
  function TotalQuantity(cart: seq<CartLine>): int
  {
    if cart == [] then 0 else cart[0].quantity + TotalQuantity(cart[1..])
  }

  /** Sum of the quantities of the lines that carry `id`. */
  function QuantityOf(cart: seq<CartLine>, id: int): int
  {
    if cart == [] then 0
    else (if cart[0].id == id then cart[0].quantity else 0) + QuantityOf(cart[1..], id)
  }

  /** Each add raises the sum of all quantities by exactly one. */
  lemma {:induction false} AddLineTotal(cart: seq<CartLine>, p: Product)
    ensures TotalQuantity(AddLine(cart, p)) == TotalQuantity(cart) + 1
  {
    if cart != [] && cart[0].id != p.id {
      AddLineTotal(cart[1..], p);
      assert ([cart[0]] + AddLine(cart[1..], p))[1..] == AddLine(cart[1..], p);
    } else if cart != [] {
      assert ([Bump(cart[0])] + cart[1..])[1..] == cart[1..];
    }
  }

  /** Each add raises the count held for the product's id by one and leaves every other id's count alone. */
  lemma {:induction false} AddLineQuantityOf(cart: seq<CartLine>, p: Product, id: int)
    ensures QuantityOf(AddLine(cart, p), id) == QuantityOf(cart, id) + (if id == p.id then 1 else 0)
  {
    if cart != [] && cart[0].id != p.id {
      AddLineQuantityOf(cart[1..], p, id);
      assert ([cart[0]] + AddLine(cart[1..], p))[1..] == AddLine(cart[1..], p);
    } else if cart != [] {
      assert ([Bump(cart[0])] + cart[1..])[1..] == cart[1..];
    }
  }

  /** The ids present in a cart. */
  function LineIds(cart: seq<CartLine>): set<int>
  {
    set line | line in cart :: line.id
  }

  /** At most one line per product. */
  predicate UniqueLineIds(cart: seq<CartLine>)
  {
    forall i, j :: 0 <= i < j < |cart| ==> cart[i].id != cart[j].id
  }

  lemma LineIdsConcat(a: seq<CartLine>, b: seq<CartLine>)
    ensures LineIds(a + b) == LineIds(a) + LineIds(b)
  {
  }

  /** An add introduces the product's id and no other. */
  lemma {:induction false} AddLineIds(cart: seq<CartLine>, p: Product)
    ensures LineIds(AddLine(cart, p)) == LineIds(cart) + {p.id}
  {
    if cart == [] {
      assert AddLine(cart, p) == [Snapshot(p)];
    } else if cart[0].id == p.id {
      assert AddLine(cart, p) == [Bump(cart[0])] + cart[1..];
      assert cart == [cart[0]] + cart[1..];
    } else {
      AddLineIds(cart[1..], p);
      assert cart == [cart[0]] + cart[1..];
      LineIdsConcat([cart[0]], AddLine(cart[1..], p));
      LineIdsConcat([cart[0]], cart[1..]);
    }
  }

  /** A cart has unique ids exactly when its first id is not among the rest and the rest are unique. */
  lemma UniqueLineIdsSplit(cart: seq<CartLine>)
    requires cart != []
    ensures UniqueLineIds(cart) <==> cart[0].id !in LineIds(cart[1..]) && UniqueLineIds(cart[1..])
  {
    if cart[0].id !in LineIds(cart[1..]) && UniqueLineIds(cart[1..]) {
      forall i, j | 0 <= i < j < |cart| ensures cart[i].id != cart[j].id {
        if i == 0 {
          assert cart[j] in cart[1..];
        } else {
          assert cart[i] == cart[1..][i - 1] && cart[j] == cart[1..][j - 1];
        }
      }
    }
    if UniqueLineIds(cart) {
      forall line | line in cart[1..] ensures line.id != cart[0].id {
        var k :| 0 <= k < |cart[1..]| && cart[1..][k] == line;
        assert cart[k + 1] == line;
      }
    }
  }

  /** If every product had at most one line before an add, it still has after it. */
  lemma {:induction false} AddLineKeepsIdsUnique(cart: seq<CartLine>, p: Product)
    requires UniqueLineIds(cart)
    ensures UniqueLineIds(AddLine(cart, p))
  {
    if cart != [] {
      UniqueLineIdsSplit(cart);
      var r := AddLine(cart, p);
      if cart[0].id == p.id {
        assert r[1..] == cart[1..];
      } else {
        AddLineKeepsIdsUnique(cart[1..], p);
        AddLineIds(cart[1..], p);
        assert r[1..] == AddLine(cart[1..], p);
      }
      UniqueLineIdsSplit(r);
    }
  }

  /** The lines that do not carry `id`, in their order. */
  function LinesWithout(cart: seq<CartLine>, id: int): seq<CartLine>
  {
    if cart == [] then []
    else (if cart[0].id == id then [] else [cart[0]]) + LinesWithout(cart[1..], id)
  }

  /** Lines of other products keep every field and their relative order. */
  lemma {:induction false} AddLineKeepsOthers(cart: seq<CartLine>, p: Product)
    ensures LinesWithout(AddLine(cart, p), p.id) == LinesWithout(cart, p.id)
  {
    if cart == [] {
      assert LinesWithout([Snapshot(p)], p.id) == [] + LinesWithout([], p.id);
    } else if cart[0].id == p.id {
      assert ([Bump(cart[0])] + cart[1..])[1..] == cart[1..];
    } else {
      AddLineKeepsOthers(cart[1..], p);
      assert ([cart[0]] + AddLine(cart[1..], p))[1..] == AddLine(cart[1..], p);
    }
  }

  /**
   * The update on the parsed array: scan for the first line with the product's id
   * (`cart.find`), then bump it in place or push a snapshot.
   */
  method UpdateCart(cart: seq<CartLine>, p: Product) returns (updated: seq<CartLine>)
    ensures updated == AddLine(cart, p)
  {
    var k := 0;
    while k < |cart| && cart[k].id != p.id
      invariant 0 <= k <= |cart|
      invariant forall j :: 0 <= j < k ==> cart[j].id != p.id
    {
      k := k + 1;
    }
    if k < |cart| {
      updated := cart[k := Bump(cart[k])];
      AddLineExisting(cart, p, k);
    } else {
      updated := cart + [Snapshot(p)];
      AddLineNew(cart, p);
    }
  }

  /** A run of clicks: one add per product, in order. */
  function AddAll(cart: seq<CartLine>, clicks: seq<Product>): seq<CartLine>
    decreases |clicks|
  {
    if clicks == [] then cart else AddAll(AddLine(cart, clicks[0]), clicks[1..])
  }

  /** How many of the clicks were on a product with id `id`. */
  function ClicksOn(clicks: seq<Product>, id: int): nat
  {
    if clicks == [] then 0 else (if clicks[0].id == id then 1 else 0) + ClicksOn(clicks[1..], id)
  }

  /**
   * After any run of clicks each id's count has grown by the number of clicks on it,
   * the total by the number of clicks, and there is still at most one line per id.
   */
  lemma {:induction false} ClicksAccumulate(cart: seq<CartLine>, clicks: seq<Product>, id: int)
    ensures QuantityOf(AddAll(cart, clicks), id) == QuantityOf(cart, id) + ClicksOn(clicks, id)
    ensures TotalQuantity(AddAll(cart, clicks)) == TotalQuantity(cart) + |clicks|
    ensures UniqueLineIds(cart) ==> UniqueLineIds(AddAll(cart, clicks))
    decreases |clicks|
  {
    if clicks != [] {
      AddLineQuantityOf(cart, clicks[0], id);
      AddLineTotal(cart, clicks[0]);
      if UniqueLineIds(cart) {
        AddLineKeepsIdsUnique(cart, clicks[0]);
      }
      ClicksAccumulate(AddLine(cart, clicks[0]), clicks[1..], id);
    }
  }

  // ---- the browser's key/value store ----

  /**
   * What `localStorage` holds under a key: the JSON text of a line list, the
   * empty string, or text on which the handler throws: text that `JSON.parse`
   * rejects, a parsed value that is not an array, or an array with a `null` element
   * before the first line carrying the product's id.
   */
  datatype Stored = Json(lines: seq<CartLine>) | EmptyText | Malformed

  const CartKey: string := "cart"

  /**
   * `JSON.parse(localStorage.getItem('cart') || '[]')`: a missing key and the
   * empty string both read as `[]`; `None` when the parse throws.
   */
  function LoadCart(entries: map<string, Stored>): Option<seq<CartLine>>
  {
    if CartKey !in entries then Some([])
    else match entries[CartKey]
      case Json(lines) => Some(lines)
      case EmptyText => Some([])
      case Malformed => None
  }

  /** The stored cart, if it can be read, has at most one line per id. */
  predicate StoredIdsUnique(entries: map<string, Stored>)
  {
    LoadCart(entries).Some? ==> UniqueLineIds(LoadCart(entries).value)
  }

  datatype AddOutcome = Added | ProductMissing | ParseFailed

  /** The browser's `localStorage`, seen as a map from key to stored value. */
  class Storage {
    var entries: map<string, Stored>

    constructor (initial: map<string, Stored>)
      ensures entries == initial
    {
      entries := initial;
    }

    /**
     * The shared add-to-cart body. If the stored cart cannot be parsed the handler
     * throws before writing, so nothing changes; otherwise the updated list is
     * written back under `'cart'` and no other key is touched.
     */
    method AddToCart(p: Product) returns (outcome: AddOutcome)
      modifies this
      ensures outcome != ProductMissing
      ensures outcome == ParseFailed <==> LoadCart(old(entries)).None?
      ensures outcome == Added ==>
                entries == old(entries)[CartKey := Json(AddLine(LoadCart(old(entries)).value, p))]
      ensures outcome == ParseFailed ==> entries == old(entries)
      ensures StoredIdsUnique(old(entries)) ==> StoredIdsUnique(entries)
      ensures outcome == Added ==>
                TotalQuantity(LoadCart(entries).value) == TotalQuantity(LoadCart(old(entries)).value) + 1
    {
      var loaded := LoadCart(entries);
      if loaded.None? {
        return ParseFailed;
      }
      var cart := UpdateCart(loaded.value, p);
      entries := entries[CartKey := Json(cart)];
      outcome := Added;
      AddLineTotal(loaded.value, p);
      if UniqueLineIds(loaded.value) {
        AddLineKeepsIdsUnique(loaded.value, p);
      }
    }
  }
}
