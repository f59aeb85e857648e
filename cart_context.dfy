/**
 * The cart store of src/contexts/CartContext.tsx: an ordered list of cart
 * lines, each a product with a quantity and an optional customization.
 * Adding merges on the key (product id, customization); removing and
 * re-quantifying match on the product id alone.
 */
module CartContext {
  import opened Wrappers
  import opened Text

  datatype CustomizationType = Print | Embroidery | Premium

  /** A paid modification of a line; `price` is added to the unit price. */
  datatype Customization = Customization(kind: CustomizationType, text: Option<string>, price: int)

  /** A catalogue product; `price` is the formatted price string ("100.000đ"). */
  datatype Product = Product(
    id: int, name: string, price: string, image: string, category: string,
    description: string, rating: real, reviews: int, sku: string, tags: seq<string>)

  datatype CartLine = CartLine(product: Product, quantity: int, customization: Option<Customization>)

  // ---------------------------------------------------------------- keys

  /** The line's merge key is (id, c). The source compares the JSON serialisations of the
      customizations, which this model reads as structural equality. */
  predicate SameKey(line: CartLine, id: int, c: Option<Customization>) {
    line.product.id == id && line.customization == c
  }

  predicate HasKey(items: seq<CartLine>, id: int, c: Option<Customization>) {
    exists i :: 0 <= i < |items| && SameKey(items[i], id, c)
  }

  /** No two lines share a merge key. */
  predicate KeysUnique(items: seq<CartLine>) {
    forall i, j :: 0 <= i < j < |items| ==>
      !SameKey(items[j], items[i].product.id, items[i].customization)
  }

  // ---------------------------------------------------------------- list transforms

  /** `map`: every line with key (id, c) gets `q` more. */
  function Bumped(items: seq<CartLine>, id: int, c: Option<Customization>, q: int): seq<CartLine> {
    if items == [] then []
    else
      var head := if SameKey(items[0], id, c) then items[0].(quantity := items[0].quantity + q) else items[0];
      [head] + Bumped(items[1..], id, c, q)
  }

  /** addToCart's new list: merge into the line(s) with the same key, else append one line. */
  function Added(items: seq<CartLine>, p: Product, q: int, c: Option<Customization>): seq<CartLine> {
    if HasKey(items, p.id, c) then Bumped(items, p.id, c, q) else items + [CartLine(p, q, c)]
  }

  /** `filter`: removeFromCart's new list, every line with another product id. */
  function Without(items: seq<CartLine>, id: int): seq<CartLine> {
    if items == [] then []
    else if items[0].product.id == id then Without(items[1..], id)
    else [items[0]] + Without(items[1..], id)
  }

  /** `map`: every line with product id `id` gets quantity `q`. */
  function Requantified(items: seq<CartLine>, id: int, q: int): seq<CartLine> {
    if items == [] then []
    else
      var head := if items[0].product.id == id then items[0].(quantity := q) else items[0];
      [head] + Requantified(items[1..], id, q)
  }

  /** updateQuantity's new list: a quantity of 0 or less removes, any other sets. */
  function Updated(items: seq<CartLine>, id: int, q: int): seq<CartLine> {
    if q <= 0 then Without(items, id) else Requantified(items, id, q)
  }

  // ---------------------------------------------------------------- totals

  /** `parseFloat(price.replace(/[^\d]/g, ""))`; None stands for NaN (no digit at all). */
  function UnitPrice(price: string): Option<nat> {
    var ds := Digits(price);
    if ds == [] then None else Some(DecimalValue(ds))
  }

  /** `customization?.price || 0` */
  function CustomizationPrice(line: CartLine): int {
    match line.customization
    case Some(c) => c.price
    case None => 0
  }

  /** `(price + customizationPrice) * quantity`, NaN when the price has no digit. */
  function LineTotal(line: CartLine): Option<int> {
    match UnitPrice(line.product.price)
    case None => None
    case Some(u) => Some((u + CustomizationPrice(line)) * line.quantity)
  }

  /** `+` on numbers that may be NaN: NaN absorbs everything. */
  function AddNumbers(a: Option<int>, b: Option<int>): (r: Option<int>)
    ensures r.Some? <==> a.Some? && b.Some?
  {
    if a.Some? && b.Some? then Some(a.value + b.value) else None
  }

  /** getTotalItems: `reduce` of quantities from 0. */
  function ItemCount(items: seq<CartLine>): int {
    if items == [] then 0 else items[0].quantity + ItemCount(items[1..])
  }

  /** getTotalPrice: `reduce` of line totals from 0. */
  function PriceTotal(items: seq<CartLine>): Option<int> {
    if items == [] then Some(0) else AddNumbers(LineTotal(items[0]), PriceTotal(items[1..]))
  }

  // ---------------------------------------------------------------- the store

  /** The provider's `items` state; each operation replaces it through `setItems`. */
  class CartStore {
    var items: seq<CartLine>

    constructor ()
      ensures items == []
    {
      items := [];
    }

    method AddToCart(product: Product, quantity: int, customization: Option<Customization>)
      modifies this
      ensures items == Added(old(items), product, quantity, customization)
      ensures HasKey(old(items), product.id, customization) ==> |items| == |old(items)|
      ensures !HasKey(old(items), product.id, customization) ==>
                items == old(items) + [CartLine(product, quantity, customization)]
      ensures KeysUnique(old(items)) ==> KeysUnique(items)
      ensures KeysUnique(old(items)) ==> GetTotalItems() == old(GetTotalItems()) + quantity
    {
      if KeysUnique(items) {
        AddedKeepsKeysUnique(items, product, quantity, customization);
        AddedItemCount(items, product, quantity, customization);
      }
      BumpedAt(items, product.id, customization, quantity);
      items := Added(items, product, quantity, customization);
    }

    method RemoveFromCart(productId: int)
      modifies this
      ensures items == Without(old(items), productId)
      ensures forall x :: x in items <==> x in old(items) && x.product.id != productId
      ensures KeysUnique(old(items)) ==> KeysUnique(items)
    {
      WithoutMembers(items, productId);
      if KeysUnique(items) {
        WithoutKeepsKeysUnique(items, productId);
      }
      items := Without(items, productId);
    }

    method UpdateQuantity(productId: int, quantity: int)
      modifies this
      ensures items == Updated(old(items), productId, quantity)
      ensures quantity <= 0 ==> items == Without(old(items), productId)
      ensures quantity > 0 ==> |items| == |old(items)|
      ensures KeysUnique(old(items)) ==> KeysUnique(items)
    {
      if quantity <= 0 {
        RemoveFromCart(productId);
        return;
      }
      RequantifiedAt(items, productId, quantity);
      if KeysUnique(items) {
        RequantifiedKeepsKeysUnique(items, productId, quantity);
      }
      items := Requantified(items, productId, quantity);
    }

    method ClearCart()
      modifies this
      ensures items == []
    {
      items := [];
    }

    function GetTotalItems(): int
      reads this
    {
      ItemCount(items)
    }

    function GetTotalPrice(): Option<int>
      reads this
    {
      PriceTotal(items)
    }
  }

  // ---------------------------------------------------------------- properties

  /** Merging changes exactly the lines with the key, each by `q`, and keeps every position. */
  lemma {:induction false} BumpedAt(items: seq<CartLine>, id: int, c: Option<Customization>, q: int)
    ensures |Bumped(items, id, c, q)| == |items|
    ensures forall i :: 0 <= i < |items| ==>
      Bumped(items, id, c, q)[i] ==
        if SameKey(items[i], id, c) then items[i].(quantity := items[i].quantity + q) else items[i]
  {
    if items != [] {
      BumpedAt(items[1..], id, c, q);
    }
  }

  /** Adding an existing key leaves the length alone and raises that line's quantity by `q`. */
  lemma AddedExisting(items: seq<CartLine>, p: Product, q: int, c: Option<Customization>)
    requires HasKey(items, p.id, c)
    ensures |Added(items, p, q, c)| == |items|
    ensures forall i :: 0 <= i < |items| && SameKey(items[i], p.id, c) ==>
      Added(items, p, q, c)[i] == items[i].(quantity := items[i].quantity + q)
    ensures forall i :: 0 <= i < |items| && !SameKey(items[i], p.id, c) ==>
      Added(items, p, q, c)[i] == items[i]
  {
    BumpedAt(items, p.id, c, q);
  }

  lemma AddedKeepsKeysUnique(items: seq<CartLine>, p: Product, q: int, c: Option<Customization>)
    requires KeysUnique(items)
    ensures KeysUnique(Added(items, p, q, c))
  {
    if HasKey(items, p.id, c) {
      BumpedAt(items, p.id, c, q);
    } else {
      var r := Added(items, p, q, c);
      forall i, j | 0 <= i < j < |r|
        ensures !SameKey(r[j], r[i].product.id, r[i].customization)
      {
        if j == |items| {
          assert !SameKey(items[i], p.id, c);
        }
      }
    }
  }

  /** A line with a key absent from the list is untouched by a merge on that key. */
  lemma {:induction false} BumpedAbsent(items: seq<CartLine>, id: int, c: Option<Customization>, q: int)
    requires !HasKey(items, id, c)
    ensures Bumped(items, id, c, q) == items
  {
    if items != [] {
      assert !SameKey(items[0], id, c);
      assert !HasKey(items[1..], id, c) by {
        forall i | 0 <= i < |items[1..]| ensures !SameKey(items[1..][i], id, c) {
          assert items[1..][i] == items[i + 1];
        }
      }
      BumpedAbsent(items[1..], id, c, q);
      assert items == [items[0]] + items[1..];
    }
  }

  lemma {:induction false} ItemCountConcat(a: seq<CartLine>, b: seq<CartLine>)
    ensures ItemCount(a + b) == ItemCount(a) + ItemCount(b)
  {
    if a == [] {
      assert a + b == b;
    } else {
      assert (a + b)[1..] == a[1..] + b;
      ItemCountConcat(a[1..], b);
    }
  }

  lemma {:induction false} PriceTotalConcat(a: seq<CartLine>, b: seq<CartLine>)
    ensures PriceTotal(a + b) == AddNumbers(PriceTotal(a), PriceTotal(b))
  {
    if a == [] {
      assert a + b == b;
    } else {
      assert (a + b)[1..] == a[1..] + b;
      PriceTotalConcat(a[1..], b);
    }
  }

  lemma EmptyCartTotals()
    ensures ItemCount([]) == 0 && PriceTotal([]) == Some(0)
  {
  }

  /** With unique keys, adding `q` of a product raises the item count by exactly `q`. */
  lemma {:induction false} AddedItemCount(items: seq<CartLine>, p: Product, q: int, c: Option<Customization>)
    requires KeysUnique(items)
    ensures ItemCount(Added(items, p, q, c)) == ItemCount(items) + q
  {
    if HasKey(items, p.id, c) {
      BumpedItemCount(items, p.id, c, q);
    } else {
      ItemCountConcat(items, [CartLine(p, q, c)]);
    }
  }

  lemma {:induction false} BumpedItemCount(items: seq<CartLine>, id: int, c: Option<Customization>, q: int)
    requires KeysUnique(items) && HasKey(items, id, c)
    ensures ItemCount(Bumped(items, id, c, q)) == ItemCount(items) + q
  {
    var rest := items[1..];
    assert KeysUnique(rest) by {
      forall i, j | 0 <= i < j < |rest| ensures !SameKey(rest[j], rest[i].product.id, rest[i].customization) {
        assert rest[i] == items[i + 1] && rest[j] == items[j + 1];
      }
    }
    if SameKey(items[0], id, c) {
      assert !HasKey(rest, id, c) by {
        forall i | 0 <= i < |rest| ensures !SameKey(rest[i], id, c) {
          assert rest[i] == items[i + 1];
        }
      }
      BumpedAbsent(rest, id, c, q);
    } else {
      var k :| 0 <= k < |items| && SameKey(items[k], id, c);
      assert SameKey(rest[k - 1], id, c);
      BumpedItemCount(rest, id, c, q);
    }
  }

  /** removeFromCart keeps exactly the lines with another id, whatever their customization. */
  lemma {:induction false} WithoutMembers(items: seq<CartLine>, id: int)
    ensures forall x :: x in Without(items, id) <==> x in items && x.product.id != id
  {
    if items != [] {
      WithoutMembers(items[1..], id);
      assert items == [items[0]] + items[1..];
    }
  }

  /** removeFromCart keeps the order: it distributes over concatenation. */
  lemma {:induction false} WithoutConcat(a: seq<CartLine>, b: seq<CartLine>, id: int)
    ensures Without(a + b, id) == Without(a, id) + Without(b, id)
  {
    if a == [] {
      assert a + b == b;
    } else {
      assert (a + b)[1..] == a[1..] + b;
      WithoutConcat(a[1..], b, id);
    }
  }

  lemma {:induction false} KeysUniqueCons(x: CartLine, s: seq<CartLine>)
    ensures KeysUnique([x] + s) <==>
      KeysUnique(s) && forall y :: y in s ==> !SameKey(y, x.product.id, x.customization)
  {
    var t := [x] + s;
    if KeysUnique(t) {
      forall i, j | 0 <= i < j < |s| ensures !SameKey(s[j], s[i].product.id, s[i].customization) {
        assert t[i + 1] == s[i] && t[j + 1] == s[j];
      }
      forall y | y in s ensures !SameKey(y, x.product.id, x.customization) {
        var k :| 0 <= k < |s| && s[k] == y;
        assert t[0] == x && t[k + 1] == y;
      }
    }
    if KeysUnique(s) && forall y :: y in s ==> !SameKey(y, x.product.id, x.customization) {
      forall i, j | 0 <= i < j < |t| ensures !SameKey(t[j], t[i].product.id, t[i].customization) {
        if i == 0 {
          assert t[j] == s[j - 1];
          assert t[j] in s;
        } else {
          assert t[i] == s[i - 1] && t[j] == s[j - 1];
        }
      }
    }
  }

  lemma {:induction false} WithoutKeepsKeysUnique(items: seq<CartLine>, id: int)
    requires KeysUnique(items)
    ensures KeysUnique(Without(items, id))
  {
    if items != [] {
      assert items == [items[0]] + items[1..];
      KeysUniqueCons(items[0], items[1..]);
      WithoutKeepsKeysUnique(items[1..], id);
      if items[0].product.id != id {
        WithoutMembers(items[1..], id);
        KeysUniqueCons(items[0], Without(items[1..], id));
      }
    }
  }

  /** Re-quantifying sets the quantity of every line with the id and changes nothing else. */
  lemma {:induction false} RequantifiedAt(items: seq<CartLine>, id: int, q: int)
    ensures |Requantified(items, id, q)| == |items|
    ensures forall i :: 0 <= i < |items| ==>
      Requantified(items, id, q)[i] ==
        if items[i].product.id == id then items[i].(quantity := q) else items[i]
  {
    if items != [] {
      RequantifiedAt(items[1..], id, q);
    }
  }

  lemma RequantifiedKeepsKeysUnique(items: seq<CartLine>, id: int, q: int)
    requires KeysUnique(items)
    ensures KeysUnique(Requantified(items, id, q))
  {
    RequantifiedAt(items, id, q);
  }

  /** updateQuantity with a positive quantity: same length, every line with the id set to q,
      every other line unchanged in place. */
  lemma UpdatedPositive(items: seq<CartLine>, id: int, q: int)
    requires q > 0
    ensures |Updated(items, id, q)| == |items|
    ensures forall i :: 0 <= i < |items| ==>
      Updated(items, id, q)[i] == if items[i].product.id == id then items[i].(quantity := q) else items[i]
  {
    RequantifiedAt(items, id, q);
  }

  /** A price string "<n>" followed by non-digit decoration ("đ", " VND") reads back as n. */
  lemma UnitPriceOfShown(n: nat, suffix: string)
    requires Digits(suffix) == []
    ensures UnitPrice(Show(n) + suffix) == Some(n)
  {
    DigitsConcat(Show(n), suffix);
    DigitsOfDigits(Show(n));
    assert Digits(Show(n) + suffix) == Show(n);
    DecimalValueOfShow(n);
  }

  /** Folding addToCart over quantities of one key. */
  function AddedAll(items: seq<CartLine>, p: Product, qs: seq<int>, c: Option<Customization>): seq<CartLine>
    decreases |qs|
  {
    if qs == [] then items else AddedAll(Added(items, p, qs[0], c), p, qs[1..], c)
  }

  function Sum(qs: seq<int>): int {
    if qs == [] then 0 else qs[0] + Sum(qs[1..])
  }

  /** Repeated adds of one (product, customization) into a cart without that key yield one new
      line at the end whose quantity is the sum of the requested quantities. */
  lemma {:induction false} AddedAllOneLine(items: seq<CartLine>, p: Product, qs: seq<int>, c: Option<Customization>)
    requires !HasKey(items, p.id, c) && qs != []
    ensures AddedAll(items, p, qs, c) == items + [CartLine(p, Sum(qs), c)]
    decreases |qs|
  {
    AddedAllMerges(items, p, qs[1..], c, qs[0]);
  }

  lemma {:induction false} AddedAllMerges(items: seq<CartLine>, p: Product, qs: seq<int>, c: Option<Customization>, q0: int)
    requires !HasKey(items, p.id, c)
    ensures AddedAll(items + [CartLine(p, q0, c)], p, qs, c) == items + [CartLine(p, q0 + Sum(qs), c)]
    decreases |qs|
  {
    var s := items + [CartLine(p, q0, c)];
    if qs != [] {
      assert SameKey(s[|items|], p.id, c);
      BumpedAt(s, p.id, c, qs[0]);
      var s' := Added(s, p, qs[0], c);
      assert s' == items + [CartLine(p, q0 + qs[0], c)];
      AddedAllMerges(items, p, qs[1..], c, q0 + qs[0]);
    }
  }

  lemma DigitsExample()
    ensures Digits("100.000đ") == "100000"
  {
    var s := "100.000đ";
    assert s[1..] == "00.000đ" && s[1..][1..] == "0.000đ" && s[1..][1..][1..] == ".000đ";
    var t := ".000đ";
    assert t[1..] == "000đ" && t[1..][1..] == "00đ" && t[1..][1..][1..] == "0đ";
    assert "0đ"[1..] == "đ" && "đ"[1..] == "";
    assert Digits("đ") == "";
    assert Digits("0đ") == "0";
    assert Digits("00đ") == "00";
    assert Digits("000đ") == "000";
    assert Digits(t) == "000";
    assert Digits("0.000đ") == "0000";
    assert Digits("00.000đ") == "00000";
  }

  lemma DecimalValueExample()
    ensures DecimalValue("100000") == 100000
  {
    assert "100000"[..5] == "10000" && "10000"[..4] == "1000" && "1000"[..3] == "100";
    assert "100"[..2] == "10" && "10"[..1] == "1" && "1"[..0] == "";
  }

  /** The formatted price "100.000đ" reads as 100000. */
  lemma UnitPriceExample()
    ensures UnitPrice("100.000đ") == Some(100000)
  {
    DigitsExample();
    DecimalValueExample();
  }

  /** Scenario: adding 1 and then 2 of a product priced "100.000đ" leaves one line of quantity 3
      whose total is 300000. */
  lemma AddThenIncrement(p: Product)
    requires p.price == "100.000đ"
    ensures Added(Added([], p, 1, None), p, 2, None) == [CartLine(p, 3, None)]
    ensures PriceTotal([CartLine(p, 3, None)]) == Some(300000)
  {
    var one := Added([], p, 1, None);
    assert one == [CartLine(p, 1, None)];
    assert SameKey(one[0], p.id, None);
    BumpedAt(one, p.id, None, 2);
    ThreeAtHundredThousand(p, 3);
  }

  /** A single plain line of a "100.000đ" product costs 100000 per unit. */
  lemma ThreeAtHundredThousand(p: Product, q: int)
    requires p.price == "100.000đ"
    ensures PriceTotal([CartLine(p, q, None)]) == Some(100000 * q)
  {
    var line := CartLine(p, q, None);
    UnitPriceExample();
    assert CustomizationPrice(line) == 0;
    assert LineTotal(line) == Some(100000 * q);
    assert [line][1..] == [];
  }

  /** Scenario: the same product once plain and once embroidered stays two lines, and the
      embroidered line costs the customization price more. */
  lemma PlainAndCustomizedStayApart(p: Product, e: Customization)
    requires e.kind == Embroidery && e.price == 20000
    requires UnitPrice(p.price).Some?
    ensures Added(Added([], p, 1, None), p, 1, Some(e)) == [CartLine(p, 1, None), CartLine(p, 1, Some(e))]
    ensures PriceTotal(Added(Added([], p, 1, None), p, 1, Some(e)))
            == Some(2 * UnitPrice(p.price).value + 20000)
  {
    var one := Added([], p, 1, None);
    assert one == [CartLine(p, 1, None)];
    assert !SameKey(one[0], p.id, Some(e));
    var two := Added(one, p, 1, Some(e));
    assert two == one + [CartLine(p, 1, Some(e))];
    assert two[1..] == [CartLine(p, 1, Some(e))];
    assert two[1..][1..] == [];
    var u := UnitPrice(p.price).value;
    assert LineTotal(two[0]) == Some(u) && LineTotal(two[1]) == Some(u + 20000);
    assert PriceTotal(two[1..]) == Some(u + 20000);
    assert PriceTotal(two) == AddNumbers(Some(u), Some(u + 20000));
  }
}
