/** The point-of-sale page app/penjualan/page.tsx: the cart (`addToCart`, `updateCartQuantity`,
    `removeFromCart`, `cartTotal`) and `handleAddSale`, which turns the cart and the form into
    an `addSale` or `updateSale` call. The cart operations copy the cart and overwrite one slot
    of the copy, so they are methods over a fresh array, each proved equal to a specification
    function on sequences. */
module SalesPage {
  import opened Seqs
  import opened Entities
  import opened Stock
  import opened SalesFlow

  /** `item.price * item.quantity` */
  function LineValue(item: SaleItem): real
  {
    item.price * item.quantity as real
  }

  /** `cartItems.reduce((acc, item) => acc + item.price * item.quantity, 0)`: a cart with no
      negative price or quantity never totals below zero. */
  function CartTotal(cart: seq<SaleItem>): (r: real)
    ensures (forall k :: 0 <= k < |cart| ==> cart[k].price >= 0.0 && cart[k].quantity >= 0) ==> r >= 0.0
  {
    SumNonNegative(cart, (it: SaleItem) => LineValue(it));
    Sum(cart, (it: SaleItem) => LineValue(it))
  }

  /** The line holding `productId` at the price named `priceName`, if any. */
  function FindLine(cart: seq<SaleItem>, productId: Id, priceName: string): Option<nat>
  {
    FindIndex(cart, (it: SaleItem) => it.productId == productId && it.priceName == Some(priceName))
  }

  /** The cart after addToCart (specification of the method AddToCart). `price` and `priceName`
      are the optional arguments; the name defaults to 'Normal', the price to the product's. */
  function CartAdded(products: seq<Product>, cart: seq<SaleItem>, status: SaleStatus, productId: Id,
                     price: Option<real>, priceName: Option<string>): seq<SaleItem>
  {
    match FindProduct(products, productId)
    case None => cart
    case Some(p) =>
      var name := priceName.GetOr("Normal");
      match FindLine(cart, productId, name)
      case Some(i) =>
        if status == Selesai && cart[i].quantity >= p.stock then cart
        else cart[i := cart[i].(quantity := cart[i].quantity + 1)]
      case None =>
        if status == Selesai && p.stock <= 0 then cart
        else cart + [SaleItem(productId, 1, price.GetOr(p.price), Some(name))]
  }

  /** addToCart */
  method AddToCart(products: seq<Product>, cartItems: seq<SaleItem>, status: SaleStatus, productId: Id,
                   price: Option<real>, priceName: Option<string>) returns (newCart: seq<SaleItem>)
    ensures newCart == CartAdded(products, cartItems, status, productId, price, priceName)
  {
    var product := FindProduct(products, productId);
    if product.None? {
      return cartItems;
    }
    var p := product.value;
    assert product == Some(p);
    var itemPrice := if price.Some? then price.value else p.price;
    var name := priceName.GetOr("Normal");
    var existingIndex := FindLine(cartItems, productId, name);
    if existingIndex.Some? {
      var existing := cartItems[existingIndex.value];
      if status == Selesai && existing.quantity >= p.stock {
        return cartItems;
      }
      var copy := new SaleItem[|cartItems|](k requires 0 <= k < |cartItems| => cartItems[k]);
      copy[existingIndex.value] := existing.(quantity := existing.quantity + 1);
      newCart := copy[..];
      assert newCart == cartItems[existingIndex.value := existing.(quantity := existing.quantity + 1)];
    } else {
      if status == Selesai && p.stock <= 0 {
        return cartItems;
      }
      newCart := cartItems + [SaleItem(productId, 1, itemPrice, Some(name))];
    }
  }

  /** Under `Selesai`, no line asks for more than the stock of its product. */
  predicate LinesWithinStock(products: seq<Product>, cart: seq<SaleItem>)
  {
    forall i :: 0 <= i < |cart| && FindProduct(products, cart[i].productId).Some? ==>
      cart[i].quantity <= FindProduct(products, cart[i].productId).value.stock
  }

  /** Raising line `i` to quantity `q`: the total moves by the line's price per extra unit. */
  lemma CartTotalUpdate(cart: seq<SaleItem>, i: int, q: int)
    requires 0 <= i < |cart|
    ensures CartTotal(cart[i := cart[i].(quantity := q)]) == CartTotal(cart) + cart[i].price * (q - cart[i].quantity) as real
  {
    SumUpdate(cart, i, cart[i].(quantity := q), (it: SaleItem) => LineValue(it));
  }

  /** Appending a line adds its value to the total. */
  lemma CartTotalAppend(cart: seq<SaleItem>, line: SaleItem)
    ensures CartTotal(cart + [line]) == CartTotal(cart) + LineValue(line)
  {
    SumConcat(cart, [line], (it: SaleItem) => LineValue(it));
    assert [line][1..] == [];
  }

  /** Raising one line's quantity raises its product's count by the difference. */
  lemma {:induction false} ItemsQtyUpdate(items: seq<SaleItem>, i: int, q: int, pid: Id)
    requires 0 <= i < |items|
    ensures ItemsQty(items[i := items[i].(quantity := q)], pid)
         == ItemsQty(items, pid) + (if items[i].productId == pid then q - items[i].quantity else 0)
    decreases |items|
  {
    var r := items[i := items[i].(quantity := q)];
    var n := |items| - 1;
    if i == n {
      assert r[..n] == items[..n];
    } else {
      assert r[..n] == items[..n][i := items[i].(quantity := q)];
      ItemsQtyUpdate(items[..n], i, q, pid);
    }
  }

  lemma {:induction false} ItemsQtyAppend(items: seq<SaleItem>, line: SaleItem, pid: Id)
    ensures ItemsQty(items + [line], pid) == ItemsQty(items, pid) + (if line.productId == pid then line.quantity else 0)
  {
    assert (items + [line])[..|items|] == items;
  }

  /** `r` is `cart` with one more unit of `productId` on the line priced under `name`: the total
      grows by that line's price and the product's units by one. */
  predicate GainedOneUnit(cart: seq<SaleItem>, r: seq<SaleItem>, productId: Id, name: string)
  {
    exists j :: 0 <= j < |r| && r[j].productId == productId && r[j].priceName == Some(name)
                && CartTotal(r) == CartTotal(cart) + r[j].price
                && ItemsQty(r, productId) == ItemsQty(cart, productId) + 1
  }

  /** What addToCart does: an unknown product changes nothing; otherwise the cart either stays
      (the `Selesai` guard refused) or gains one unit of the product on one line, and the total
      grows by that line's price. Under `Pre-Order` nothing is refused. */
  lemma {:induction false} CartAddedEffect(products: seq<Product>, cart: seq<SaleItem>, status: SaleStatus, productId: Id,
                        price: Option<real>, priceName: Option<string>)
    ensures var r := CartAdded(products, cart, status, productId, price, priceName);
      && (FindProduct(products, productId).None? ==> r == cart)
      && (r == cart || GainedOneUnit(cart, r, productId, priceName.GetOr("Normal")))
      && (status == PreOrder && FindProduct(products, productId).Some? ==> r != cart)
  {
    var r := CartAdded(products, cart, status, productId, price, priceName);
    match FindProduct(products, productId)
    case None =>
    case Some(p) =>
      var name := priceName.GetOr("Normal");
      match FindLine(cart, productId, name)
      case Some(i) =>
        var up := cart[i := cart[i].(quantity := cart[i].quantity + 1)];
        assert r == cart || r == up;
        IncrementLine(cart, i);
        assert up[i].productId == productId && up[i].priceName == Some(name);
        assert GainedOneUnit(cart, up, productId, name);
      case None =>
        var line := SaleItem(productId, 1, price.GetOr(p.price), Some(name));
        var added := cart + [line];
        assert r == cart || r == added;
        AppendLine(cart, line);
        assert added[|cart|] == line;
        assert GainedOneUnit(cart, added, productId, name);
  }

  /** The two cases of addToCart exactly. When the cart already has a line for the product at
      the price named `name`, that line gains one unit and every other line stays; the `Selesai`
      guard refuses exactly when the line already holds the whole stock. Otherwise one new line of
      one unit is appended, priced `price ?? product.price`; the `Selesai` guard refuses exactly
      when the product is out of stock. */
  lemma CartAddedCases(products: seq<Product>, cart: seq<SaleItem>, status: SaleStatus, productId: Id,
                       price: Option<real>, priceName: Option<string>)
    requires FindProduct(products, productId).Some?
    ensures var r := CartAdded(products, cart, status, productId, price, priceName);
      var p := FindProduct(products, productId).value;
      var name := priceName.GetOr("Normal");
      match FindLine(cart, productId, name)
      case Some(i) =>
        && cart[i].productId == productId && cart[i].priceName == Some(name)
        && (r == cart <==> status == Selesai && cart[i].quantity >= p.stock)
        && (r != cart ==> r == cart[i := cart[i].(quantity := cart[i].quantity + 1)])
      case None =>
        && (forall k :: 0 <= k < |cart| ==> !(cart[k].productId == productId && cart[k].priceName == Some(name)))
        && (r == cart <==> status == Selesai && p.stock <= 0)
        && (r != cart ==> r == cart + [SaleItem(productId, 1, price.GetOr(p.price), Some(name))])
  {
    var name := priceName.GetOr("Normal");
    match FindLine(cart, productId, name)
    case Some(i) =>
      var up := cart[i := cart[i].(quantity := cart[i].quantity + 1)];
      assert up[i] != cart[i];
    case None =>
      var line := SaleItem(productId, 1, price.GetOr(FindProduct(products, productId).value.price), Some(name));
      assert |cart + [line]| != |cart|;
  }

  /** One more unit on line `i`. */
  lemma IncrementLine(cart: seq<SaleItem>, i: int)
    requires 0 <= i < |cart|
    ensures var up := cart[i := cart[i].(quantity := cart[i].quantity + 1)];
      && up != cart
      && CartTotal(up) == CartTotal(cart) + up[i].price
      && ItemsQty(up, cart[i].productId) == ItemsQty(cart, cart[i].productId) + 1
  {
    var up := cart[i := cart[i].(quantity := cart[i].quantity + 1)];
    CartTotalUpdate(cart, i, cart[i].quantity + 1);
    ItemsQtyUpdate(cart, i, cart[i].quantity + 1, cart[i].productId);
    assert up[i] != cart[i];
  }

  /** A new line of one unit. */
  lemma {:induction false} AppendLine(cart: seq<SaleItem>, line: SaleItem)
    requires line.quantity == 1
    ensures cart + [line] != cart
    ensures CartTotal(cart + [line]) == CartTotal(cart) + line.price
    ensures ItemsQty(cart + [line], line.productId) == ItemsQty(cart, line.productId) + 1
  {
    CartTotalAppend(cart, line);
    ItemsQtyAppend(cart, line, line.productId);
    assert |cart + [line]| != |cart|;
  }

  /** Under `Selesai`, addToCart never makes a line exceed its product's stock. */
  lemma CartAddedKeepsLinesWithinStock(products: seq<Product>, cart: seq<SaleItem>, productId: Id,
                                       price: Option<real>, priceName: Option<string>)
    requires LinesWithinStock(products, cart)
    ensures LinesWithinStock(products, CartAdded(products, cart, Selesai, productId, price, priceName))
  {
    var r := CartAdded(products, cart, Selesai, productId, price, priceName);
    match FindProduct(products, productId)
    case None =>
    case Some(p) =>
      var name := priceName.GetOr("Normal");
      match FindLine(cart, productId, name)
      case Some(i) =>
      case None =>
        assert forall k :: 0 <= k < |cart| ==> r[k] == cart[k];
  }

  /** The whole cart asks no more of any product than its stock. */
  predicate NoOversell(products: seq<Product>, cart: seq<SaleItem>)
  {
    forall i :: 0 <= i < |cart| && FindProduct(products, cart[i].productId).Some? ==>
      ItemsQty(cart, cart[i].productId) <= FindProduct(products, cart[i].productId).value.stock
  }

  /** The per-line guard lets the cart oversell: with one unit in stock, a 'Normal' line and a
      'Grosir' line of the same product each pass the check, and the cart holds two units. */
  lemma PerLineGuardOversells()
    ensures var products := [Product("p", "Nastar", 85000.0, Some([ProductPrice("Grosir", 80000.0)]), 1, None)];
      var once := CartAdded(products, [], Selesai, "p", Some(85000.0), Some("Normal"));
      var twice := CartAdded(products, once, Selesai, "p", Some(80000.0), Some("Grosir"));
      LinesWithinStock(products, twice) && ItemsQty(twice, "p") == 2 && !NoOversell(products, twice)
  {
    var products := [Product("p", "Nastar", 85000.0, Some([ProductPrice("Grosir", 80000.0)]), 1, None)];
    var pr := products[0];
    assert FindIndex(products, (x: Product) => x.id == "p") == Some(0);
    assert FindProduct(products, "p") == Some(pr);
    var a := SaleItem("p", 1, 85000.0, Some("Normal"));
    var b := SaleItem("p", 1, 80000.0, Some("Grosir"));
    var once := CartAdded(products, [], Selesai, "p", Some(85000.0), Some("Normal"));
    assert once == [a];
    assert FindIndex([a], (it: SaleItem) => it.productId == "p" && it.priceName == Some("Grosir")) == None;
    var twice := CartAdded(products, once, Selesai, "p", Some(80000.0), Some("Grosir"));
    assert twice == [a, b];
    ItemsQtyAppend([], a, "p");
    assert [] + [a] == [a];
    ItemsQtyAppend([a], b, "p");
    assert [a] + [b] == [a, b];
  }

  /** addToCart with the guard the page evidently intends: the product's units over the whole
      cart, not one line's, are compared with its stock. */
  function CartAddedPerProduct(products: seq<Product>, cart: seq<SaleItem>, status: SaleStatus, productId: Id,
                               price: Option<real>, priceName: Option<string>): seq<SaleItem>
  {
    match FindProduct(products, productId)
    case None => cart
    case Some(p) =>
      if status == Selesai && ItemsQty(cart, productId) >= p.stock then cart
      else
        var name := priceName.GetOr("Normal");
        match FindLine(cart, productId, name)
        case Some(i) => cart[i := cart[i].(quantity := cart[i].quantity + 1)]
        case None => cart + [SaleItem(productId, 1, price.GetOr(p.price), Some(name))]
  }

  /** With the per-product guard, a `Selesai` cart that does not oversell never starts to. */
  lemma CartAddedPerProductNoOversell(products: seq<Product>, cart: seq<SaleItem>, productId: Id,
                                      price: Option<real>, priceName: Option<string>)
    requires NoOversell(products, cart)
    ensures NoOversell(products, CartAddedPerProduct(products, cart, Selesai, productId, price, priceName))
  {
    match FindProduct(products, productId)
    case None =>
    case Some(p) =>
      if ItemsQty(cart, productId) < p.stock {
        PerProductAddsOne(products, cart, productId, price, priceName, p);
      } else {
        assert CartAddedPerProduct(products, cart, Selesai, productId, price, priceName) == cart;
      }
  }

  /** The case of `CartAddedPerProductNoOversell` where the guard lets one more unit in. */
  lemma {:induction false} PerProductAddsOne(products: seq<Product>, cart: seq<SaleItem>, productId: Id,
                          price: Option<real>, priceName: Option<string>, p: Product)
    requires NoOversell(products, cart)
    requires FindProduct(products, productId) == Some(p) && ItemsQty(cart, productId) < p.stock
    ensures NoOversell(products, CartAddedPerProduct(products, cart, Selesai, productId, price, priceName))
  {
    var name := priceName.GetOr("Normal");
    var line := SaleItem(productId, 1, price.GetOr(p.price), Some(name));
    var r := CartAddedPerProduct(products, cart, Selesai, productId, price, priceName);
    PerProductAddsOneShape(products, cart, productId, price, priceName, p);
    match FindLine(cart, productId, name)
    case Some(i) =>
      IncrementNoOversell(products, cart, i, p, r);
    case None =>
      AppendNoOversell(products, cart, line, p, r);
  }

  /** What the cart becomes when the per-product guard lets one more unit in. */
  lemma {:induction false} PerProductAddsOneShape(products: seq<Product>, cart: seq<SaleItem>, productId: Id,
                               price: Option<real>, priceName: Option<string>, p: Product)
    requires FindProduct(products, productId) == Some(p) && ItemsQty(cart, productId) < p.stock
    ensures var r := CartAddedPerProduct(products, cart, Selesai, productId, price, priceName);
      var name := priceName.GetOr("Normal");
      match FindLine(cart, productId, name)
      case Some(i) => r == cart[i := cart[i].(quantity := cart[i].quantity + 1)]
      case None => r == cart + [SaleItem(productId, 1, price.GetOr(p.price), Some(name))]
  {
  }

  lemma {:induction false} IncrementNoOversell(products: seq<Product>, cart: seq<SaleItem>, i: int, p: Product, r: seq<SaleItem>)
    requires NoOversell(products, cart)
    requires 0 <= i < |cart| && FindProduct(products, cart[i].productId) == Some(p)
    requires ItemsQty(cart, cart[i].productId) < p.stock
    requires r == cart[i := cart[i].(quantity := cart[i].quantity + 1)]
    ensures NoOversell(products, r)
  {
    forall k | 0 <= k < |r| && FindProduct(products, r[k].productId).Some?
      ensures ItemsQty(r, r[k].productId) <= FindProduct(products, r[k].productId).value.stock
    {
      assert r[k].productId == cart[k].productId;
      ItemsQtyUpdate(cart, i, cart[i].quantity + 1, r[k].productId);
    }
  }

  lemma {:induction false} AppendNoOversell(products: seq<Product>, cart: seq<SaleItem>, line: SaleItem, p: Product, r: seq<SaleItem>)
    requires NoOversell(products, cart)
    requires FindProduct(products, line.productId) == Some(p)
    requires line.quantity == 1 && ItemsQty(cart, line.productId) < p.stock
    requires r == cart + [line]
    ensures NoOversell(products, r)
  {
    forall k | 0 <= k < |r| && FindProduct(products, r[k].productId).Some?
      ensures ItemsQty(r, r[k].productId) <= FindProduct(products, r[k].productId).value.stock
    {
      ItemsQtyAppend(cart, line, r[k].productId);
      if k < |cart| {
        assert r[k] == cart[k];
      }
    }
  }

  /** The cart after updateCartQuantity (specification of the method UpdateCartQuantity). */
  function CartQuantitySet(products: seq<Product>, cart: seq<SaleItem>, status: SaleStatus, index: int, quantity: int)
    : seq<SaleItem>
  {
    if !(0 <= index < |cart|) then cart
    else
      var item := cart[index];
      match FindProduct(products, item.productId)
      case None => cart
      case Some(p) =>
        if quantity < 1 then cart
        else if status == Selesai && quantity > p.stock then cart
        else cart[index := item.(quantity := quantity)]
  }

  /** updateCartQuantity. A slot outside the cart holds `undefined`, so nothing happens. */
  method UpdateCartQuantity(products: seq<Product>, cartItems: seq<SaleItem>, status: SaleStatus,
                            index: int, quantity: int) returns (newCart: seq<SaleItem>)
    ensures newCart == CartQuantitySet(products, cartItems, status, index, quantity)
  {
    if !(0 <= index < |cartItems|) {
      return cartItems;
    }
    var item := cartItems[index];
    var product := FindProduct(products, item.productId);
    if product.None? || quantity < 1 {
      return cartItems;
    }
    if status == Selesai && quantity > product.value.stock {
      return cartItems;
    }
    var copy := new SaleItem[|cartItems|](k requires 0 <= k < |cartItems| => cartItems[k]);
    copy[index] := item.(quantity := quantity);
    newCart := copy[..];
  }

  /** What updateCartQuantity does: either nothing, or the line at `index` takes the new quantity
      (at least 1, and within stock under `Selesai`), every other line stays, and the total moves
      by the line's price times the change. */
  lemma CartQuantitySetEffect(products: seq<Product>, cart: seq<SaleItem>, status: SaleStatus, index: int, quantity: int)
    ensures var r := CartQuantitySet(products, cart, status, index, quantity);
      && |r| == |cart|
      && (forall k :: 0 <= k < |cart| && k != index ==> r[k] == cart[k])
      && (r != cart ==>
            && 0 <= index < |cart| && quantity >= 1 && r[index] == cart[index].(quantity := quantity)
            && CartTotal(r) == CartTotal(cart) + cart[index].price * (quantity - cart[index].quantity) as real)
      && (quantity < 1 ==> r == cart)
      && (!(0 <= index < |cart|) ==> r == cart)
      && (0 <= index < |cart| ==>
            var found := FindProduct(products, cart[index].productId);
            && (found.None? ==> r == cart)
            && (found.Some? && status == Selesai && quantity > found.value.stock ==> r == cart)
            && (found.Some? && quantity >= 1 && (status != Selesai || quantity <= found.value.stock) ==>
                  r == cart[index := cart[index].(quantity := quantity)]))
      && (status == Selesai && LinesWithinStock(products, cart) ==> LinesWithinStock(products, r))
  {
    var r := CartQuantitySet(products, cart, status, index, quantity);
    if r != cart {
      CartTotalUpdate(cart, index, quantity);
    }
  }

  /** Where `splice(index, 1)` starts: a negative index counts from the end. */
  function SpliceStart(index: int, len: nat): int
  {
    if index < 0 then (if len + index < 0 then 0 else len + index) else index
  }

  /** removeFromCart: `splice(index, 1)` on a copy of the cart. */
  function RemoveFromCart(cart: seq<SaleItem>, index: int): (r: seq<SaleItem>)
    ensures var start := SpliceStart(index, |cart|);
      && (start >= |cart| ==> r == cart)
      && (start < |cart| ==>
            && |r| == |cart| - 1
            && (forall k :: 0 <= k < start ==> r[k] == cart[k])
            && (forall k :: start <= k < |r| ==> r[k] == cart[k + 1])
            && CartTotal(r) == CartTotal(cart) - LineValue(cart[start]))
  {
    var start := SpliceStart(index, |cart|);
    if start >= |cart| then cart
    else
      var f := (it: SaleItem) => LineValue(it);
      assert cart == cart[..start] + [cart[start]] + cart[start + 1..];
      SumConcat(cart[..start] + [cart[start]], cart[start + 1..], f);
      SumConcat(cart[..start], [cart[start]], f);
      SumConcat(cart[..start], cart[start + 1..], f);
      assert [cart[start]][1..] == [];
      cart[..start] + cart[start + 1..]
  }

  /** The sale form's fields. */
  datatype SaleForm = SaleForm(
    customerName: string, paymentMethod: string, status: SaleStatus, source: string, deliveryDate: string)

  /** What submitting the sale form does: nothing, or one of the two context calls. */
  datatype SaleCommand =
    | NoCommand
    | AddCommand(sale: Sale)
    | UpdateCommand(id: Id, patch: SalePatch)

  /** `newSale.customerName || 'Pelanggan Umum'` */
  function CustomerOrDefault(name: string): string
  {
    if name == "" then "Pelanggan Umum" else name
  }

  /** `newSale.status === 'Pre-Order' ? newSale.deliveryDate : undefined` */
  function DeliveryFor(form: SaleForm): Option<string>
  {
    if form.status == PreOrder then Some(form.deliveryDate) else None
  }

  /** handleAddSale: an empty cart submits nothing; otherwise the sale built from the form and
      the cart, stamped `now`, is added, or merged into the sale being edited (a non-empty id). The new sale's id
      is left empty; addSale assigns one. */
  function HandleAddSale(form: SaleForm, cart: seq<SaleItem>, editingSaleId: Option<Id>, now: string): (r: SaleCommand)
    ensures cart == [] <==> r.NoCommand?
    ensures r.AddCommand? ==>
              && !(editingSaleId.Some? && editingSaleId.value != "")
              && r.sale.items == cart && r.sale.totalPrice == CartTotal(cart) && r.sale.date == now
              && r.sale.customerName == CustomerOrDefault(form.customerName)
              && (form.customerName == "" ==> r.sale.customerName == "Pelanggan Umum")
              && (form.customerName != "" ==> r.sale.customerName == form.customerName)
              && r.sale.status == Some(form.status)
              && r.sale.paymentMethod == form.paymentMethod && r.sale.source == Some(form.source)
              && r.sale.deliveryDate == DeliveryFor(form)
              && (r.sale.deliveryDate.Some? <==> form.status == PreOrder)
              && (form.status == PreOrder ==> r.sale.deliveryDate == Some(form.deliveryDate))
    ensures r.UpdateCommand? ==>
              && editingSaleId == Some(r.id) && r.id != ""
              && r.patch.items == Some(cart) && r.patch.totalPrice == Some(CartTotal(cart))
              && r.patch.date.None?
              && r.patch.status == Some(Some(form.status))
              && r.patch.customerName == Some(CustomerOrDefault(form.customerName))
              && (form.customerName == "" ==> r.patch.customerName == Some("Pelanggan Umum"))
              && (form.customerName != "" ==> r.patch.customerName == Some(form.customerName))
              && r.patch.paymentMethod == Some(form.paymentMethod) && r.patch.source == Some(Some(form.source))
              && r.patch.deliveryDate == Some(DeliveryFor(form))
              && (r.patch.deliveryDate == Some(None) <==> form.status == Selesai)
              && (form.status == PreOrder ==> r.patch.deliveryDate == Some(Some(form.deliveryDate)))
  {
    if cart == [] then NoCommand
    else
      var totalPrice := CartTotal(cart);
      var customer := CustomerOrDefault(form.customerName);
      if editingSaleId.Some? && editingSaleId.value != "" then
        UpdateCommand(editingSaleId.value, SalePatch(Some(customer), None, Some(cart), Some(totalPrice), Some(form.paymentMethod),
                                    Some(Some(form.status)), Some(Some(form.source)), Some(DeliveryFor(form))))
      else
        AddCommand(Sale("", customer, now, cart, totalPrice, form.paymentMethod, Some(form.status),
                        Some(form.source), DeliveryFor(form)))
  }

  /** Every update the form sends names a status, so the conservation of stock plus committed
      units holds across it (the case `UpdateSaleConserves` leaves aside never arises here). */
  lemma FormUpdateConserves(prev: AppState, form: SaleForm, cart: seq<SaleItem>, id: Id, now: string)
    requires UniqueSaleIds(prev.sales)
    requires HandleAddSale(form, cart, Some(id), now).UpdateCommand?
    ensures var c := HandleAddSale(form, cart, Some(id), now);
      var next := SaleUpdated(prev, c.id, c.patch);
      |next.products| == |prev.products| &&
      forall k :: 0 <= k < |prev.products| ==> Accounted(next, k) == Accounted(prev, k)
  {
    var c := HandleAddSale(form, cart, Some(id), now);
    UpdateSaleConserves(prev, c.id, c.patch);
  }
}
