/** Cart entries, the cart totals, the discount rule and cart admission. */
module Cart {
  import opened Wrappers
  import opened Catalog

  const GiftCardCategory := "Gift Cards"
  const MinGiftValue: real := 15.0
  const MaxGiftValue: real := 100.0
  /** 30% off; `0.3` is the exact rational 3/10 here. */
  const DiscountRate: real := 0.3
  const CouponCode := "RUN50"

  /** A cart entry: a snapshot of the product, plus the loaded amount when it is a gift card. */
  datatype CartItem = CartItem(product: Product, giftValue: Option<real>)

  // ---------------------------------------------------------------------
  // Subtotal
  // ---------------------------------------------------------------------

  /** Reference definition: the sum of the prices, first entry first. */
  function SumPrices(cart: seq<CartItem>): real
  {
    if cart == [] then 0.0 else cart[0].product.price + SumPrices(cart[1..])
  }

  lemma {:induction false} SumPricesSnoc(cart: seq<CartItem>, item: CartItem)
    ensures SumPrices(cart + [item]) == SumPrices(cart) + item.product.price
  {
    if cart != [] {
      assert (cart + [item])[1..] == cart[1..] + [item];
      SumPricesSnoc(cart[1..], item);
    }
  }

  /**
   * `calculateTotal`: a left fold (`reduce`) of the entries' prices,
   * starting at 0. Whatever the order of the additions, it is the sum of
   * the prices of all entries.
   */
  function CalculateTotal(cart: seq<CartItem>): (r: real)
    ensures r == SumPrices(cart)
  {
    if cart == [] then 0.0
    else
      var init, last := cart[..|cart| - 1], cart[|cart| - 1];
      assert cart == init + [last];
      SumPricesSnoc(init, last);
      CalculateTotal(init) + last.product.price
  }

  /** The subtotal of two carts put together is the sum of their subtotals. */
  lemma {:induction false} CalculateTotalAppend(a: seq<CartItem>, b: seq<CartItem>)
    ensures CalculateTotal(a + b) == CalculateTotal(a) + CalculateTotal(b)
  {
    if b != [] {
      var init := b[..|b| - 1];
      assert (a + b)[..|a + b| - 1] == a + init;
      CalculateTotalAppend(a, init);
    } else {
      assert a + b == a;
    }
  }

  // ---------------------------------------------------------------------
  // Gift-card value
  // ---------------------------------------------------------------------

  /**
   * The filter of `calculateGiftCardValue`: the category is "Gift Cards" and
   * `giftValue` is truthy (present and not 0).
   */
  predicate CountsAsGiftCard(item: CartItem)
  {
    item.product.category == GiftCardCategory && item.giftValue.Some? && item.giftValue.value != 0.0
  }

  /** The entries kept by the filter, in cart order. */
  function GiftCards(cart: seq<CartItem>): (r: seq<CartItem>)
    ensures |r| <= |cart|
    ensures forall k :: 0 <= k < |r| ==> CountsAsGiftCard(r[k])
    ensures forall x :: x in r <==> x in cart && CountsAsGiftCard(x)
  {
    if cart == [] then []
    else
      var init, last := cart[..|cart| - 1], cart[|cart| - 1];
      assert cart == init + [last];
      GiftCards(init) + (if CountsAsGiftCard(last) then [last] else [])
  }

  /** Filtering two carts put together gives the two filtered carts, in order. */
  lemma {:induction false} GiftCardsAppend(a: seq<CartItem>, b: seq<CartItem>)
    ensures GiftCards(a + b) == GiftCards(a) + GiftCards(b)
  {
    if b == [] {
      assert a + b == a;
    } else {
      var init, last := b[..|b| - 1], b[|b| - 1];
      assert (a + b)[..|a + b| - 1] == a + init;
      assert (a + b)[|a + b| - 1] == last;
      GiftCardsAppend(a, init);
    }
  }

  /** The `reduce` over the filtered entries: a left fold of their gift values. */
  function SumLoaded(items: seq<CartItem>): real
    requires forall k :: 0 <= k < |items| ==> items[k].giftValue.Some?
  {
    if items == [] then 0.0
    else SumLoaded(items[..|items| - 1]) + items[|items| - 1].giftValue.value
  }

  /** What one entry contributes to the gift-card balance. */
  function GiftValueOf(item: CartItem): real
  {
    if CountsAsGiftCard(item) then item.giftValue.value else 0.0
  }

  /** Reference definition: the sum over all entries of what each contributes. */
  function SumGiftValues(cart: seq<CartItem>): real
  {
    if cart == [] then 0.0 else GiftValueOf(cart[0]) + SumGiftValues(cart[1..])
  }

  lemma {:induction false} SumGiftValuesSnoc(cart: seq<CartItem>, item: CartItem)
    ensures SumGiftValues(cart + [item]) == SumGiftValues(cart) + GiftValueOf(item)
  {
    if cart != [] {
      assert (cart + [item])[1..] == cart[1..] + [item];
      SumGiftValuesSnoc(cart[1..], item);
    }
  }

  /** Adding one entry adds exactly its own contribution to the filtered fold. */
  lemma FilteredSnoc(cart: seq<CartItem>, item: CartItem)
    ensures SumLoaded(GiftCards(cart + [item])) == SumLoaded(GiftCards(cart)) + GiftValueOf(item)
  {
    assert (cart + [item])[..|cart + [item]| - 1] == cart;
    var g := GiftCards(cart);
    if CountsAsGiftCard(item) {
      assert GiftCards(cart + [item]) == g + [item];
      assert (g + [item])[..|g + [item]| - 1] == g;
    } else {
      assert GiftCards(cart + [item]) == g + [];
      assert g + [] == g;
    }
  }

  /** The filtered fold is the sum over all entries of what each contributes. */
  lemma {:induction false} FilteredIsSum(cart: seq<CartItem>)
    ensures SumLoaded(GiftCards(cart)) == SumGiftValues(cart)
  {
    if cart != [] {
      var init := cart[..|cart| - 1];
      assert cart == init + [cart[|cart| - 1]];
      FilteredIsSum(init);
      FilteredSnoc(init, cart[|cart| - 1]);
      SumGiftValuesSnoc(init, cart[|cart| - 1]);
    }
  }

  /**
   * `calculateGiftCardValue`: filter, then reduce. The balance is the sum
   * of `giftValue` over the entries whose category is "Gift Cards" and
   * whose `giftValue` is set and not 0.
   */
  function CalculateGiftCardValue(cart: seq<CartItem>): (r: real)
    ensures r == SumGiftValues(cart)
  {
    FilteredIsSum(cart);
    SumLoaded(GiftCards(cart))
  }

  /** The gift-card balance of two carts put together is the sum of their balances. */
  lemma {:induction false} CalculateGiftCardValueAppend(a: seq<CartItem>, b: seq<CartItem>)
    ensures CalculateGiftCardValue(a + b) == CalculateGiftCardValue(a) + CalculateGiftCardValue(b)
  {
    if b == [] {
      assert a + b == a;
    } else {
      var init, last := b[..|b| - 1], b[|b| - 1];
      assert a + b == (a + init) + [last];
      assert b == init + [last];
      CalculateGiftCardValueAppend(a, init);
      SumGiftValuesSnoc(a + init, last);
      SumGiftValuesSnoc(init, last);
    }
  }

  /** The test cart of the source: subtotal 4 and gift-card balance 25, whatever the omitted fields. */
  lemma TestCart(name1: string, stock1: int, name4: string, stock4: int)
    ensures var cart := [
      CartItem(Product(1, name1, 3.0, stock1, "Office"), None),
      CartItem(Product(4, name4, 1.0, stock4, GiftCardCategory), Some(25.0))];
      CalculateTotal(cart) == 4.0 && CalculateGiftCardValue(cart) == 25.0
  {
    var a := CartItem(Product(1, name1, 3.0, stock1, "Office"), None);
    var b := CartItem(Product(4, name4, 1.0, stock4, GiftCardCategory), Some(25.0));
    assert [a, b][..1] == [a];
    assert [a][..0] == [];
    assert [a, b][1..] == [b];
    assert [b][1..] == [];
    assert SumGiftValues([b]) == 25.0;
  }

  // ---------------------------------------------------------------------
  // Discount and total
  // ---------------------------------------------------------------------

  /** The game's ready flag, the "use my discount" button, or the coupon code makes an order eligible. */
  function EligibleForDiscount(discountReady: bool, manualDiscount: bool, coupon: string): (e: bool)
    ensures !discountReady && !manualDiscount ==> (e <==> coupon == CouponCode)
    ensures discountReady || manualDiscount ==> e
  {
    discountReady || manualDiscount || coupon == CouponCode
  }

  /** The discount: 30% of the subtotal when eligible, nothing otherwise. */
  function Discount(subtotal: real, eligible: bool): (d: real)
    ensures !eligible ==> d == 0.0
    ensures eligible ==> d * 10.0 == subtotal * 3.0
    ensures 0.0 <= subtotal ==> 0.0 <= d <= subtotal
  {
    if eligible then subtotal * DiscountRate else 0.0
  }

  /** The amount to pay: the subtotal less the discount. */
  function OrderTotal(subtotal: real, eligible: bool): (t: real)
    ensures t + Discount(subtotal, eligible) == subtotal
    ensures eligible ==> t * 10.0 == subtotal * 7.0
    ensures !eligible ==> t == subtotal
    ensures 0.0 <= subtotal ==> 0.0 <= t <= subtotal
  {
    subtotal - Discount(subtotal, eligible)
  }

  /**
   * On a positive subtotal some discount is given exactly when the ledger is
   * ready, the manual flag is set or the coupon is "RUN50", and it is then
   * 30% of the subtotal; any other coupon text gives nothing.
   */
  lemma DiscountRule(subtotal: real, discountReady: bool, manualDiscount: bool, coupon: string)
    requires 0.0 < subtotal
    ensures var d := Discount(subtotal, EligibleForDiscount(discountReady, manualDiscount, coupon));
      (0.0 < d <==> discountReady || manualDiscount || coupon == CouponCode) &&
      (0.0 < d ==> d == subtotal * 3.0 / 10.0) &&
      (!discountReady && !manualDiscount && coupon != CouponCode ==> d == 0.0)
  {
  }

  /** The source's discount check: a subtotal of 100 gets 30 off and costs 70. */
  lemma DiscountExample()
    ensures Discount(100.0, true) == 30.0 && OrderTotal(100.0, true) == 70.0
    ensures Discount(100.0, false) == 0.0 && OrderTotal(100.0, false) == 100.0
  {
  }

  // ---------------------------------------------------------------------
  // Admission of a product to the cart
  // ---------------------------------------------------------------------

  /** Why `addToCart` refused a product. */
  datatype Rejection = OutOfStock | InvalidAmount

  /** `Number(amount)` for a gift card: not NaN and within $15..$100. */
  predicate ValidGiftAmount(amount: Option<real>)
  {
    amount.Some? && MinGiftValue <= amount.value <= MaxGiftValue
  }

  /**
   * The entry `addToCart` appends, or why it refuses. `amount` is the number
   * typed at the gift-card prompt (None for NaN); it is only consulted for a
   * gift card, as the prompt is only shown for one.
   */
  function Admit(product: Product, amount: Option<real>): (r: Result<CartItem, Rejection>)
    ensures r == Failure(OutOfStock) <==> product.stock <= 0
    ensures r == Failure(InvalidAmount) <==>
      product.stock > 0 && product.category == GiftCardCategory && !ValidGiftAmount(amount)
    ensures r.Success? ==> r.value.product == product
    ensures r.Success? ==> (r.value.giftValue.Some? <==> product.category == GiftCardCategory)
    ensures r.Success? && r.value.giftValue.Some? ==> MinGiftValue <= r.value.giftValue.value <= MaxGiftValue
    ensures r.Success? && product.category == GiftCardCategory ==> r.value.giftValue == amount
  {
    if product.stock <= 0 then Failure(OutOfStock)
    else if product.category == GiftCardCategory then
      if !ValidGiftAmount(amount) then Failure(InvalidAmount)
      else Success(CartItem(product, amount))
    else Success(CartItem(product, None))
  }

  /** Every gift card in the cart carries an admitted amount; nothing else carries one. */
  ghost predicate WellFormedCart(cart: seq<CartItem>)
  {
    forall k :: 0 <= k < |cart| ==>
      (cart[k].giftValue.Some? <==> cart[k].product.category == GiftCardCategory) &&
      (cart[k].giftValue.Some? ==> MinGiftValue <= cart[k].giftValue.value <= MaxGiftValue)
  }

  /**
   * Admitting a product keeps the cart well formed, adds its price to the
   * subtotal, and adds the loaded amount (for a gift card) to the gift-card balance.
   */
  lemma AdmitEffect(cart: seq<CartItem>, product: Product, amount: Option<real>)
    requires WellFormedCart(cart)
    requires Admit(product, amount).Success?
    ensures var item := Admit(product, amount).value;
      WellFormedCart(cart + [item]) &&
      CalculateTotal(cart + [item]) == CalculateTotal(cart) + product.price &&
      CalculateGiftCardValue(cart + [item]) ==
        CalculateGiftCardValue(cart) + (if product.category == GiftCardCategory then amount.value else 0.0)
  {
    var item := Admit(product, amount).value;
    SumPricesSnoc(cart, item);
    SumGiftValuesSnoc(cart, item);
  }

  /** In a well-formed cart every gift card counts in the balance with its full amount. */
  lemma {:induction false} WellFormedGiftBalance(cart: seq<CartItem>)
    requires WellFormedCart(cart)
    ensures 0.0 <= CalculateGiftCardValue(cart) <= MaxGiftValue * |cart| as real
  {
    SumGiftValuesBound(cart);
  }

  lemma {:induction false} SumGiftValuesBound(cart: seq<CartItem>)
    requires WellFormedCart(cart)
    ensures 0.0 <= SumGiftValues(cart) <= MaxGiftValue * |cart| as real
  {
    if cart != [] {
      assert WellFormedCart(cart[1..]) by {
        forall k | 0 <= k < |cart[1..]| ensures cart[1..][k] == cart[k + 1] { }
      }
      SumGiftValuesBound(cart[1..]);
    }
  }
}
