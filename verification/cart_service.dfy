/** The cart service: every operation acts for the identity the auth stage
    attached, and a user may only touch their own cart rows. */
module CartService {
  import opened Options
  import opened Grpc
  import opened Jwt
  import opened Entity
  import opened Repository
  import Uuid
  import Response

  datatype AddProductToCartResponse = AddProductToCartResponse(base: Response.BaseResponse, id: string)

  /** One line of a listed cart: the row's id and quantity with the
      product's current details. The quantity goes out as an int32. */
  datatype CartLine = CartLine(
    cartId: string, productId: string, productName: string, imageUrl: string, price: real, quantity: int32)

  datatype ListCartResponse = ListCartResponse(base: Response.BaseResponse, items: seq<CartLine>, totalPrice: real)

  function Line(item: CartItem, p: Product): CartLine
  {
    CartLine(item.id, p.id, p.name, p.imageFileName, p.price, Wrap32(item.quantity))
  }

  /** The lines of a cart listing: one per row whose product is live, in
      row order; rows of missing or deleted products are skipped. */
  function CartLines(items: seq<CartItem>, catalog: map<string, Product>): (r: seq<CartLine>)
    ensures |r| <= |items|
    decreases |items|
  {
    if items == [] then []
    else
      var rest := CartLines(items[1..], catalog);
      match GetProductById(catalog, items[0].productId)
      case None => rest
      case Some(p) => [Line(items[0], p)] + rest
  }

  /** Every listed line is the line of some row whose product is live. */
  lemma {:induction false} CartLinesFromLiveRows(items: seq<CartItem>, catalog: map<string, Product>, k: nat)
    requires k < |CartLines(items, catalog)|
    ensures exists i :: 0 <= i < |items| && GetProductById(catalog, items[i].productId).Some? &&
                        CartLines(items, catalog)[k] == Line(items[i], catalog[items[i].productId])
    decreases |items|
  {
    var rest := CartLines(items[1..], catalog);
    var live := GetProductById(catalog, items[0].productId).Some?;
    if live && k == 0 {
      assert CartLines(items, catalog)[0] == Line(items[0], catalog[items[0].productId]);
    } else {
      var k' := if live then k - 1 else k;
      assert CartLines(items, catalog)[k] == rest[k'];
      CartLinesFromLiveRows(items[1..], catalog, k');
      var j :| 0 <= j < |items[1..]| && GetProductById(catalog, items[1..][j].productId).Some? &&
               rest[k'] == Line(items[1..][j], catalog[items[1..][j].productId]);
      assert items[1..][j] == items[j + 1];
    }
  }

  /** The listing reads the cart front to back: the lines of a
      concatenation are the lines of each part, in order. */
  lemma {:induction false} CartLinesAppend(a: seq<CartItem>, b: seq<CartItem>, catalog: map<string, Product>)
    ensures CartLines(a + b, catalog) == CartLines(a, catalog) + CartLines(b, catalog)
    decreases |a|
  {
    if a == [] {
      assert a + b == b;
    } else {
      assert (a + b)[0] == a[0] && (a + b)[1..] == a[1..] + b;
      CartLinesAppend(a[1..], b, catalog);
    }
  }

  /** A single row gives its line when its product is live and nothing
      when the product is missing or deleted. */
  lemma CartLinesSingle(item: CartItem, catalog: map<string, Product>)
    ensures CartLines([item], catalog) ==
            match GetProductById(catalog, item.productId)
            case None => []
            case Some(p) => [Line(item, p)]
  {
    assert [item][1..] == [];
  }

  /** Completeness of the cart listing: every row of the caller whose
      product is live is listed, and the lines of the rows before it come
      first. */
  lemma CallerRowListed(rows: seq<CartItem>, userId: string, catalog: map<string, Product>, i: nat)
    requires i < |rows| && rows[i].userId == userId
    requires GetProductById(catalog, rows[i].productId).Some?
    ensures var p := GetProductById(catalog, rows[i].productId).value;
            CartLines(FindByUser(rows, userId), catalog) ==
              CartLines(FindByUser(rows[..i], userId), catalog) + [Line(rows[i], p)]
              + CartLines(FindByUser(rows[i + 1..], userId), catalog)
  {
    var p := GetProductById(catalog, rows[i].productId).value;
    var pre, x, post := rows[..i], rows[i], rows[i + 1..];
    var before, after := FindByUser(pre, userId), FindByUser(post, userId);
    assert FindByUser(rows, userId) == before + ([x] + after) by {
      assert rows == pre + ([x] + post);
      FindByUserAppend(pre, [x] + post, userId);
      FindByUserAppend([x], post, userId);
      FindByUserSingle(x, userId);
    }
    assert CartLines(before + ([x] + after), catalog) == CartLines(before, catalog) + [Line(x, p)] + CartLines(after, catalog) by {
      CartLinesAppend(before, [x] + after, catalog);
      CartLinesAppend([x], after, catalog);
      CartLinesSingle(x, catalog);
    }
  }

  /** A stored cart id, presented as it is printed, is found by the
      update and delete lookups. */
  lemma StoredCartIdFound(rows: seq<CartItem>, i: nat)
    requires CanonicalIds(rows) && i < |rows|
    ensures Uuid.Parse(rows[i].id) == Some(rows[i].id)
    ensures FindById(rows, rows[i].id).Some?
  {
    Uuid.CanonicalParsesToItself(rows[i].id);
  }

  /** The listed total: price times the stored quantity, summed over the
      listed lines. */
  function CartTotal(items: seq<CartItem>, catalog: map<string, Product>): real
    decreases |items|
  {
    if items == [] then 0.0
    else
      var rest := CartTotal(items[1..], catalog);
      match GetProductById(catalog, items[0].productId)
      case None => rest
      case Some(p) => p.price * (items[0].quantity as real) + rest
  }

  /** One step of the listing loop: the row at `i` contributes its line
      and its amount, if its product is live. */
  lemma CartStep(items: seq<CartItem>, i: nat, catalog: map<string, Product>)
    requires i < |items|
    ensures var p := GetProductById(catalog, items[i].productId);
            && CartLines(items[i..], catalog) ==
                 (if p.Some? then [Line(items[i], p.value)] else []) + CartLines(items[i + 1..], catalog)
            && CartTotal(items[i..], catalog) ==
                 (if p.Some? then p.value.price * (items[i].quantity as real) else 0.0) + CartTotal(items[i + 1..], catalog)
  {
    assert items[i..][1..] == items[i + 1..];
  }

  /** The listing loop's invariant survives one step: the line and the
      amount of row `i`, if any, move from the remainder to the
      accumulators. */
  lemma CartAccumulate(items: seq<CartItem>, i: nat, catalog: map<string, Product>,
                       acc: seq<CartLine>, total: real)
    requires i < |items|
    requires acc + CartLines(items[i..], catalog) == CartLines(items, catalog)
    requires total + CartTotal(items[i..], catalog) == CartTotal(items, catalog)
    ensures var p := GetProductById(catalog, items[i].productId);
            var acc' := if p.Some? then acc + [Line(items[i], p.value)] else acc;
            var total' := if p.Some? then total + p.value.price * (items[i].quantity as real) else total;
            && acc' + CartLines(items[i + 1..], catalog) == CartLines(items, catalog)
            && total' + CartTotal(items[i + 1..], catalog) == CartTotal(items, catalog)
  {
    CartStep(items, i, catalog);
    var p := GetProductById(catalog, items[i].productId);
    if p.Some? {
      assert acc + [Line(items[i], p.value)] + CartLines(items[i + 1..], catalog)
          == acc + ([Line(items[i], p.value)] + CartLines(items[i + 1..], catalog));
    } else {
      assert [] + CartLines(items[i + 1..], catalog) == CartLines(items[i + 1..], catalog);
    }
  }

  /** At the end of the listing loop the accumulators hold the listing. */
  lemma CartEnd(items: seq<CartItem>, catalog: map<string, Product>, acc: seq<CartLine>, total: real)
    requires acc + CartLines(items[|items|..], catalog) == CartLines(items, catalog)
    requires total + CartTotal(items[|items|..], catalog) == CartTotal(items, catalog)
    ensures acc == CartLines(items, catalog) && total == CartTotal(items, catalog)
  {
    assert items[|items|..] == [];
    assert acc + [] == acc;
  }

  /** When every product of the cart is live, the listing has exactly one
      line per row, in order, each carrying its row's id. */
  lemma {:induction false} CartLinesAllLive(items: seq<CartItem>, catalog: map<string, Product>)
    requires forall i :: 0 <= i < |items| ==> GetProductById(catalog, items[i].productId).Some?
    ensures |CartLines(items, catalog)| == |items|
    ensures forall k :: 0 <= k < |items| ==> CartLines(items, catalog)[k].cartId == items[k].id
    decreases |items|
  {
    if items != [] {
      assert forall i :: 0 <= i < |items[1..]| ==> items[1..][i] == items[i + 1];
      CartLinesAllLive(items[1..], catalog);
    }
  }

  /** The item an add-to-cart writes over an existing row: one more of the
      product and fresh update stamps. */
  function Incremented(item: CartItem, author: string, now: int): CartItem
  {
    item.(quantity := item.quantity + 1, updatedAt := Some(now), updatedBy := Some(author))
  }

  /** An update keeps every id, hence the primary key. */
  lemma UpdateKeepsIds(rows: seq<CartItem>, item: CartItem)
    requires DistinctIds(rows)
    ensures DistinctIds(ApplyUpdate(rows, item))
    ensures CanonicalIds(rows) ==> CanonicalIds(ApplyUpdate(rows, item))
  {
    var r := ApplyUpdate(rows, item);
    assert forall i :: 0 <= i < |rows| ==> r[i].id == rows[i].id;
  }

  /** After an update of the row a lookup found, the lookup finds the
      rewritten row. */
  lemma {:induction false} UpdateKeepsFirstMatch(rows: seq<CartItem>, found: CartItem, item: CartItem,
                                                 userId: string, productId: string)
    requires DistinctIds(rows)
    requires FindByUserAndProduct(rows, userId, productId) == Some(found) && item.id == found.id
    ensures FindByUserAndProduct(ApplyUpdate(rows, item), userId, productId) ==
            Some(found.(quantity := item.quantity, updatedAt := item.updatedAt, updatedBy := item.updatedBy))
    decreases |rows|
  {
    var r := ApplyUpdate(rows, item);
    assert r[0] == if rows[0].id == item.id
                   then rows[0].(quantity := item.quantity, updatedAt := item.updatedAt, updatedBy := item.updatedBy)
                   else rows[0];
    if !(rows[0].userId == userId && rows[0].productId == productId) {
      assert forall i :: 0 <= i < |rows[1..]| ==> rows[1..][i] == rows[i + 1];
      assert r[1..] == ApplyUpdate(rows[1..], item);
      var j :| 0 <= j < |rows[1..]| && rows[1..][j] == found;
      assert rows[0].id != rows[j + 1].id;
      UpdateKeepsFirstMatch(rows[1..], found, item, userId, productId);
    }
  }

  /** After an insert into a cart without the product, the lookup finds
      the inserted row. */
  lemma {:induction false} InsertBecomesMatch(rows: seq<CartItem>, item: CartItem)
    requires FindByUserAndProduct(rows, item.userId, item.productId).None?
    ensures FindByUserAndProduct(rows + [item], item.userId, item.productId) == Some(item)
    decreases |rows|
  {
    if rows != [] {
      assert (rows + [item])[1..] == rows[1..] + [item];
      assert forall i :: 0 <= i < |rows[1..]| ==> rows[1..][i] == rows[i + 1];
      InsertBecomesMatch(rows[1..], item);
    }
  }

  const ProductNotFoundMessage: string := "product not found"
  const AddFailedMessage: string := "Failed to add product to cart"
  const InvalidCartIdMessage: string := "Invalid cart ID format"
  const CartItemNotFoundMessage: string := "Cart item not found"

  class CartService {
    const carts: CartTable
    const catalog: ProductTable

    constructor(carts: CartTable, catalog: ProductTable)
      ensures this.carts == carts && this.catalog == catalog
    {
      this.carts := carts;
      this.catalog := catalog;
    }

    /** The product must be live; then the caller's row for it gains one,
        or a new row with quantity one is inserted under `newId`. */
    method AddProductToCart(ctx: Context, productId: string, newId: string, now: int)
      returns (r: Result<AddProductToCartResponse, Error>)
      requires carts.Valid() && Uuid.Canonical(newId)
      modifies carts
      ensures carts.Valid()
      ensures GetProductById(catalog.rows, productId).None? ==>
                && r == Success(AddProductToCartResponse(Response.NotFoundResponse(ProductNotFoundMessage), ""))
                && carts.rows == old(carts.rows)
      ensures GetProductById(catalog.rows, productId).Some? && GetClaimsFromContext(ctx).None? ==>
                r == Failure(Response.UnauthenticatedResponse()) && carts.rows == old(carts.rows)
      ensures GetProductById(catalog.rows, productId).Some? && GetClaimsFromContext(ctx).Some? ==>
                var claims := GetClaimsFromContext(ctx).value;
                var existing := FindByUserAndProduct(old(carts.rows), claims.subject, productId);
                && (existing.Some? ==>
                     var item := Incremented(existing.value, claims.fullName, now);
                     && carts.rows == ApplyUpdate(old(carts.rows), item)
                     && r == Success(AddProductToCartResponse(
                                       Response.SuccessResponse("Product added to cart successfully"), item.id)))
                && (existing.None? && HasCartId(old(carts.rows), newId) ==>
                     && r == Success(AddProductToCartResponse(Response.BadRequestResponse(AddFailedMessage), ""))
                     && carts.rows == old(carts.rows))
                && (existing.None? && !HasCartId(old(carts.rows), newId) ==>
                     && carts.rows == old(carts.rows) + [CartItem(newId, claims.subject, productId, 1, now,
                                                                  claims.fullName, None, None)]
                     && r == Success(AddProductToCartResponse(
                                       Response.SuccessResponse("Product added to cart successfully"), newId)))
    {
      var product := GetProductById(catalog.rows, productId);
      if product.None? {
        return Success(AddProductToCartResponse(Response.NotFoundResponse(ProductNotFoundMessage), ""));
      }
      var claimsOpt := GetClaimsFromContext(ctx);
      if claimsOpt.None? {
        return Failure(Response.UnauthenticatedResponse());
      }
      var claims := claimsOpt.value;
      var cartItem := FindByUserAndProduct(carts.rows, claims.subject, productId);
      var cartId: string;
      if cartItem.Some? {
        var item := Incremented(cartItem.value, claims.fullName, now);
        UpdateKeepsIds(carts.rows, item);
        carts.rows := ApplyUpdate(carts.rows, item);
        cartId := item.id;
      } else {
        var newItem := CartItem(newId, claims.subject, productId, 1, now, claims.fullName, None, None);
        if HasCartId(carts.rows, newId) {
          return Success(AddProductToCartResponse(Response.BadRequestResponse(AddFailedMessage), ""));
        }
        carts.rows := carts.rows + [newItem];
        cartId := newId;
      }
      r := Success(AddProductToCartResponse(Response.SuccessResponse("Product added to cart successfully"), cartId));
    }

    /** The caller's cart, skipping rows whose product is gone, with the
        total price. */
    method ListCart(ctx: Context) returns (r: Result<ListCartResponse, Error>)
      ensures GetClaimsFromContext(ctx).None? ==> r == Failure(Response.UnauthenticatedResponse())
      ensures GetClaimsFromContext(ctx).Some? ==>
                var items := FindByUser(carts.rows, GetClaimsFromContext(ctx).value.subject);
                r == Success(ListCartResponse(Response.SuccessResponse("Cart items retrieved successfully"),
                                              CartLines(items, catalog.rows), CartTotal(items, catalog.rows)))
    {
      var claimsOpt := GetClaimsFromContext(ctx);
      if claimsOpt.None? {
        return Failure(Response.UnauthenticatedResponse());
      }
      var cartItems := FindByUser(carts.rows, claimsOpt.value.subject);
      var products := catalog.rows;
      var responseItems: seq<CartLine> := [];
      var totalPrice: real := 0.0;
      for i := 0 to |cartItems|
        invariant responseItems + CartLines(cartItems[i..], products) == CartLines(cartItems, products)
        invariant totalPrice + CartTotal(cartItems[i..], products) == CartTotal(cartItems, products)
      {
        CartAccumulate(cartItems, i, products, responseItems, totalPrice);
        var product := GetProductById(products, cartItems[i].productId);
        if product.None? {
          continue;
        }
        var line := Line(cartItems[i], product.value);
        responseItems := responseItems + [line];
        totalPrice := totalPrice + product.value.price * (cartItems[i].quantity as real);
      }
      CartEnd(cartItems, products, responseItems, totalPrice);
      r := Success(ListCartResponse(Response.SuccessResponse("Cart items retrieved successfully"),
                                    responseItems, totalPrice));
    }

    /** Sets the quantity of one of the caller's rows. The checks run in
        order: identity, id format, existence, ownership. */
    method UpdateCartItem(ctx: Context, cartId: string, newQuantity: int32, now: int)
      returns (r: Result<Response.BaseResponse, Error>)
      requires carts.Valid()
      modifies carts
      ensures carts.Valid()
      ensures GetClaimsFromContext(ctx).None? ==>
                r == Failure(Response.UnauthenticatedResponse()) && carts.rows == old(carts.rows)
      ensures GetClaimsFromContext(ctx).Some? && Uuid.Parse(cartId).None? ==>
                r == Success(Response.BadRequestResponse(InvalidCartIdMessage)) && carts.rows == old(carts.rows)
      ensures GetClaimsFromContext(ctx).Some? && Uuid.Parse(cartId).Some? ==>
                var claims := GetClaimsFromContext(ctx).value;
                var found := FindById(old(carts.rows), Uuid.Parse(cartId).value);
                && (found.None? ==>
                     r == Success(Response.NotFoundResponse(CartItemNotFoundMessage)) && carts.rows == old(carts.rows))
                && (found.Some? && found.value.userId != claims.subject ==>
                     r == Failure(Response.UnauthenticatedResponse()) && carts.rows == old(carts.rows))
                && (found.Some? && found.value.userId == claims.subject ==>
                     && r == Success(Response.SuccessResponse("Cart item updated successfully"))
                     && carts.rows == ApplyUpdate(old(carts.rows), found.value.(quantity := newQuantity,
                                        updatedAt := Some(now), updatedBy := Some(claims.fullName))))
    {
      var claimsOpt := GetClaimsFromContext(ctx);
      if claimsOpt.None? {
        return Failure(Response.UnauthenticatedResponse());
      }
      var claims := claimsOpt.value;
      var cartUuid := Uuid.Parse(cartId);
      if cartUuid.None? {
        return Success(Response.BadRequestResponse(InvalidCartIdMessage));
      }
      var cartItem := FindById(carts.rows, cartUuid.value);
      if cartItem.None? {
        return Success(Response.NotFoundResponse(CartItemNotFoundMessage));
      }
      if cartItem.value.userId != claims.subject {
        return Failure(Response.UnauthenticatedResponse());
      }
      var item := cartItem.value.(quantity := newQuantity, updatedAt := Some(now), updatedBy := Some(claims.fullName));
      UpdateKeepsIds(carts.rows, item);
      carts.rows := ApplyUpdate(carts.rows, item);
      r := Success(Response.SuccessResponse("Cart item updated successfully"));
    }

    /** Removes one of the caller's rows, with the same checks in the same
        order as the update. */
    method DeleteCartItem(ctx: Context, cartId: string) returns (r: Result<Response.BaseResponse, Error>)
      requires carts.Valid()
      modifies carts
      ensures carts.Valid()
      ensures GetClaimsFromContext(ctx).None? ==>
                r == Failure(Response.UnauthenticatedResponse()) && carts.rows == old(carts.rows)
      ensures GetClaimsFromContext(ctx).Some? && Uuid.Parse(cartId).None? ==>
                r == Success(Response.BadRequestResponse(InvalidCartIdMessage)) && carts.rows == old(carts.rows)
      ensures GetClaimsFromContext(ctx).Some? && Uuid.Parse(cartId).Some? ==>
                var claims := GetClaimsFromContext(ctx).value;
                var found := FindById(old(carts.rows), Uuid.Parse(cartId).value);
                && (found.None? ==>
                     r == Success(Response.NotFoundResponse(CartItemNotFoundMessage)) && carts.rows == old(carts.rows))
                && (found.Some? && found.value.userId != claims.subject ==>
                     r == Failure(Response.UnauthenticatedResponse()) && carts.rows == old(carts.rows))
                && (found.Some? && found.value.userId == claims.subject ==>
                     && r == Success(Response.SuccessResponse("Cart item deleted successfully"))
                     && carts.rows == DeleteById(old(carts.rows), Uuid.Parse(cartId).value))
    {
      var claimsOpt := GetClaimsFromContext(ctx);
      if claimsOpt.None? {
        return Failure(Response.UnauthenticatedResponse());
      }
      var claims := claimsOpt.value;
      var cartUuid := Uuid.Parse(cartId);
      if cartUuid.None? {
        return Success(Response.BadRequestResponse(InvalidCartIdMessage));
      }
      var cartItem := FindById(carts.rows, cartUuid.value);
      if cartItem.None? {
        return Success(Response.NotFoundResponse(CartItemNotFoundMessage));
      }
      if cartItem.value.userId != claims.subject {
        return Failure(Response.UnauthenticatedResponse());
      }
      DeleteKeepsDistinct(carts.rows, cartUuid.value);
      DeleteKeepsCanonical(carts.rows, cartUuid.value);
      carts.rows := DeleteById(carts.rows, cartUuid.value);
      r := Success(Response.SuccessResponse("Cart item deleted successfully"));
    }
  }

  /** A delete keeps the primary key. */
  lemma {:induction false} DeleteKeepsDistinct(rows: seq<CartItem>, id: string)
    requires DistinctIds(rows)
    ensures DistinctIds(DeleteById(rows, id))
    decreases |rows|
  {
    if rows != [] {
      DeleteKeepsDistinct(rows[1..], id);
      var rest := DeleteById(rows[1..], id);
      if rows[0].id != id {
        forall k | 0 <= k < |rest|
          ensures rest[k].id != rows[0].id
        {
          var j :| 0 <= j < |rows[1..]| && rows[1..][j] == rest[k];
          assert rows[j + 1] == rest[k];
        }
      }
    }
  }

  /** A delete keeps every remaining id canonical. */
  lemma DeleteKeepsCanonical(rows: seq<CartItem>, id: string)
    requires CanonicalIds(rows)
    ensures CanonicalIds(DeleteById(rows, id))
  {
    var r := DeleteById(rows, id);
    forall k | 0 <= k < |r|
      ensures Uuid.Canonical(r[k].id)
    {
      var j :| 0 <= j < |rows| && rows[j] == r[k];
    }
  }

  /** Adding a live product leaves the caller with a row for it: one more
      than before, or a new row of one. */
  lemma {:induction false} AddedProductIsInCart(rows: seq<CartItem>, userId: string, productId: string,
                                                author: string, newId: string, now: int)
    requires DistinctIds(rows)
    ensures var existing := FindByUserAndProduct(rows, userId, productId);
            existing.Some? ==>
              FindByUserAndProduct(ApplyUpdate(rows, Incremented(existing.value, author, now)), userId, productId)
                == Some(Incremented(existing.value, author, now))
    ensures FindByUserAndProduct(rows, userId, productId).None? ==>
              FindByUserAndProduct(rows + [CartItem(newId, userId, productId, 1, now, author, None, None)], userId, productId)
                == Some(CartItem(newId, userId, productId, 1, now, author, None, None))
  {
    var existing := FindByUserAndProduct(rows, userId, productId);
    if existing.Some? {
      var item := Incremented(existing.value, author, now);
      UpdateKeepsFirstMatch(rows, existing.value, item, userId, productId);
    } else {
      InsertBecomesMatch(rows, CartItem(newId, userId, productId, 1, now, author, None, None));
    }
  }
}
