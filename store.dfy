/**
 * The store page (`StoreApp`): the catalog and cart it holds, the checkout
 * that lowers stock and redeems the game discount, the admin's stock edit,
 * and the game events whose ledger updates it receives.
 */
module Store {
  import opened Wrappers
  import opened Catalog
  import opened Cart
  import opened Ledger
  import opened Persistence
  import Game
  import Arith

  // ---------------------------------------------------------------------
  // Stock after checkout
  // ---------------------------------------------------------------------

  /** `cart.filter((c) => c.id === id).length`: the units of product `id` in the cart. */
  function SoldCount(cart: seq<CartItem>, id: int): (n: nat)
    ensures n <= |cart|
    ensures (forall k :: 0 <= k < |cart| ==> cart[k].product.id != id) ==> n == 0
    ensures (forall k :: 0 <= k < |cart| ==> cart[k].product.id == id) ==> n == |cart|
    ensures |cart| == 1 ==> (n == 1 <==> cart[0].product.id == id)
  {
    if cart == [] then 0
    else (if cart[0].product.id == id then 1 else 0) + SoldCount(cart[1..], id)
  }

  /** The units of a product in two carts put together are the units in each. */
  lemma {:induction false} SoldCountAppend(a: seq<CartItem>, b: seq<CartItem>, id: int)
    ensures SoldCount(a + b, id) == SoldCount(a, id) + SoldCount(b, id)
  {
    if a == [] {
      assert a + b == b;
    } else {
      assert (a + b)[1..] == a[1..] + b;
      SoldCountAppend(a[1..], b, id);
    }
  }

  /** The catalog after checkout: each product's stock less the units of it in the cart. */
  function StockAfterOrder(products: seq<Product>, cart: seq<CartItem>): (r: seq<Product>)
    ensures |r| == |products|
    ensures forall i :: 0 <= i < |r| ==>
      r[i] == products[i].(stock := products[i].stock - SoldCount(cart, products[i].id))
  {
    seq(|products|, i requires 0 <= i < |products| =>
      products[i].(stock := products[i].stock - SoldCount(cart, products[i].id)))
  }

  /** The total stock of a catalog. */
  function SumStock(products: seq<Product>): int
  {
    if products == [] then 0 else products[0].stock + SumStock(products[1..])
  }

  /** The units in the cart of all products of a catalog, product by product. */
  function SumSold(products: seq<Product>, cart: seq<CartItem>): int
  {
    if products == [] then 0 else SoldCount(cart, products[0].id) + SumSold(products[1..], cart)
  }

  /** The cart entries whose id lies in `ids`. */
  function CountIn(cart: seq<CartItem>, ids: set<int>): nat
  {
    if cart == [] then 0
    else (if cart[0].product.id in ids then 1 else 0) + CountIn(cart[1..], ids)
  }

  lemma {:induction false} StockAfterOrderSum(products: seq<Product>, cart: seq<CartItem>)
    ensures SumStock(StockAfterOrder(products, cart)) == SumStock(products) - SumSold(products, cart)
  {
    if products != [] {
      assert StockAfterOrder(products, cart)[1..] == StockAfterOrder(products[1..], cart);
      StockAfterOrderSum(products[1..], cart);
    }
  }

  lemma {:induction false} CountInAdd(cart: seq<CartItem>, ids: set<int>, id: int)
    requires id !in ids
    ensures CountIn(cart, ids + {id}) == SoldCount(cart, id) + CountIn(cart, ids)
  {
    if cart != [] {
      CountInAdd(cart[1..], ids, id);
    }
  }

  lemma {:induction false} SumSoldIsCountIn(products: seq<Product>, cart: seq<CartItem>)
    requires DistinctIds(products)
    ensures SumSold(products, cart) == CountIn(cart, Ids(products))
  {
    if products == [] {
      CountInNone(cart);
    } else {
      var rest := products[1..];
      assert DistinctIds(rest) by {
        forall i, j | 0 <= i < j < |rest| ensures rest[i].id != rest[j].id {
          assert rest[i] == products[i + 1] && rest[j] == products[j + 1];
        }
      }
      SumSoldIsCountIn(rest, cart);
      assert products[0].id !in Ids(rest);
      CountInAdd(cart, Ids(rest), products[0].id);
      assert Ids(products) == Ids(rest) + {products[0].id};
    }
  }

  lemma {:induction false} CountInNone(cart: seq<CartItem>)
    ensures CountIn(cart, {}) == 0
  {
    if cart != [] {
      CountInNone(cart[1..]);
    }
  }

  lemma {:induction false} CountInAll(cart: seq<CartItem>, ids: set<int>)
    requires forall k :: 0 <= k < |cart| ==> cart[k].product.id in ids
    ensures CountIn(cart, ids) == |cart|
  {
    if cart != [] {
      CountInAll(cart[1..], ids);
    }
  }

  /**
   * Checkout sells exactly the cart: when the catalog's ids are distinct and
   * every cart entry is a catalog product, the total stock drops by the
   * number of cart entries.
   */
  lemma StockConservation(products: seq<Product>, cart: seq<CartItem>)
    requires DistinctIds(products)
    requires forall k :: 0 <= k < |cart| ==> cart[k].product.id in Ids(products)
    ensures SumStock(StockAfterOrder(products, cart)) == SumStock(products) - |cart|
  {
    StockAfterOrderSum(products, cart);
    SumSoldIsCountIn(products, cart);
    CountInAll(cart, Ids(products));
  }

  /**
   * Admission checks each product's current stock but not the units already
   * in the cart, so a checkout can leave a stock below zero: one unit in
   * stock, two in the cart.
   */
  lemma StockCanGoNegative(p: Product)
    requires p.stock == 1 && p.category != GiftCardCategory
    ensures var item := Admit(p, None).value;
      Admit(p, None).Success? &&
      StockAfterOrder([p], [item, item])[0].stock == -1
  {
    var item := Admit(p, None).value;
    assert item.product == p;
    assert [item, item][1..] == [item];
    assert [item][1..] == [];
    assert SoldCount([item, item], p.id) == 2;
  }

  /** The events the game component receives from its timers, the keyboard and its buttons. */
  datatype GameEvent = Start | Key(key: string) | EnemyTick | Countdown | VitalsChange | FinishButton

  class StoreApp {
    var products: seq<Product>
    var cart: seq<CartItem>
    /** The ledger the page shows and prices with. */
    var gameState: GameRecord
    var manualDiscount: bool
    var coupon: string
    var orderComplete: bool
    /** The browser storage shared with the game. */
    const storage: LocalStorage

    /** The page's initial state; `products` is what the catalog load returned. */
    constructor (storage: LocalStorage, products: seq<Product>, today: Date)
      ensures this.storage == storage && this.products == products
      ensures cart == [] && !manualDiscount && coupon == "" && !orderComplete
      ensures gameState == LoadGame(storage.game, today)
      ensures InSync(today)
    {
      this.storage := storage;
      this.products := products;
      cart := [];
      gameState := LoadGame(storage.game, today);
      manualDiscount := false;
      coupon := "";
      orderComplete := false;
    }

    /** The page's ledger is the one a load from storage on `today` would give. */
    ghost predicate InSync(today: Date)
      reads this, storage
    {
      gameState == LoadGame(storage.game, today)
    }

    /** The subtotal shown: the sum of the cart's prices. */
    function Subtotal(): (s: real)
      reads this
      ensures s == SumPrices(cart)
    {
      CalculateTotal(cart)
    }

    /** The total shown: the sum of the cart's prices less the discount the page is eligible for. */
    function AmountDue(): (t: real)
      reads this
      ensures t + Discount(SumPrices(cart), EligibleForDiscount(gameState.discountReady, manualDiscount, coupon)) ==
        SumPrices(cart)
    {
      OrderTotal(Subtotal(), EligibleForDiscount(gameState.discountReady, manualDiscount, coupon))
    }

    /** The gift-card balance shown: the loaded amounts of the cart's gift cards. */
    function GiftCardBalance(): (v: real)
      reads this
      ensures v == SumGiftValues(cart)
    {
      CalculateGiftCardValue(cart)
    }

    /**
     * `addToCart`: an out-of-stock product or a bad gift-card amount is
     * refused (the alert) and the cart is unchanged; otherwise exactly one
     * entry is appended.
     */
    method AddToCart(product: Product, amount: Option<real>) returns (alert: Option<Rejection>)
      modifies this`cart
      ensures Admit(product, amount).Failure? ==>
        cart == old(cart) && alert == Some(Admit(product, amount).error)
      ensures Admit(product, amount).Success? ==>
        cart == old(cart) + [Admit(product, amount).value] && alert == None
      ensures old(WellFormedCart(cart)) ==> WellFormedCart(cart)
    {
      var admitted := Admit(product, amount);
      match admitted
      case Failure(e) =>
        alert := Some(e);
      case Success(item) =>
        if WellFormedCart(cart) {
          AdmitEffect(cart, product, amount);
        }
        cart := cart + [item];
        alert := None;
    }

    /**
     * `completeOrder`: every product loses the units of it in the cart, the
     * cart empties, the order is confirmed, a ready game discount is
     * redeemed (and saved), and the manual flag and coupon are cleared.
     */
    method CompleteOrder()
      modifies this, storage
      ensures products == StockAfterOrder(old(products), old(cart))
      ensures cart == [] && orderComplete && !manualDiscount && coupon == ""
      ensures gameState == Redeem(old(gameState))
      ensures storage.game == if old(gameState).discountReady then Some(gameState) else old(storage.game)
      ensures storage.leaderboard == old(storage.leaderboard)
      ensures old(ValidRecord(gameState)) ==> ValidRecord(gameState)
      ensures old(gameState.date) == gameState.date && (old(InSync(gameState.date)) ==> InSync(gameState.date))
    {
      products := StockAfterOrder(products, cart);
      cart := [];
      orderComplete := true;
      if gameState.discountReady {
        var reset := Redeem(gameState);
        storage.game := Some(reset);
        gameState := reset;
      }
      manualDiscount := false;
      coupon := "";
    }

    /** `updateStock`: the admin's edit of one product's stock. */
    method UpdateStock(id: int, value: int)
      modifies this`products
      ensures products == WithStock(old(products), id, value)
    {
      products := WithStock(products, id, value);
    }

    /**
     * One event of the game component, on `today`; a ledger the game reports
     * at the end of a run (`onCoins`) replaces the page's. Starting, key
     * presses and enemy steps never touch storage and do what
     * `StartRun`, `KeyPress` and `EnemyTick` say; a countdown tick does what
     * `CountdownTick` says; the finish button and spent vitals end a running
     * run as `Game.RunningGame.EndedRun` says. The page stays in step with storage,
     * and the storage and session invariants hold.
     */
    method HandleGameEvent(game: Game.RunningGame, event: GameEvent, today: Date)
      returns (report: Option<GameRecord>)
      requires game.storage == storage && game.Valid()
      modifies game, storage, this`gameState
      ensures game.Valid()
      ensures gameState == if report.Some? then report.value else old(gameState)
      ensures event == Start ==>
        report == None && unchanged(storage) && game.running && game.message == Game.Instructions &&
        game.health == Game.StartHealth && game.energy == Game.StartEnergy && game.distance == 0 &&
        game.level == 1 && game.timeLeft == Game.RunSeconds &&
        game.player == Game.PlayerStart && game.enemy == Game.EnemyStart
      ensures event.Key? ==>
        report == None && unchanged(storage) && game.running == old(game.running) &&
        game.message == old(game.message) && game.health == old(game.health) &&
        game.timeLeft == old(game.timeLeft) && game.enemy == old(game.enemy)
      ensures event.Key? && old(game.running) ==>
        game.player == Game.Move(old(game.player), event.key) && game.distance == old(game.distance) + 1 &&
        game.energy == Arith.Max(0, old(game.energy) - 1) && game.level == Game.LevelFor(old(game.distance))
      ensures event.Key? && !old(game.running) ==>
        game.player == old(game.player) && game.distance == old(game.distance) &&
        game.energy == old(game.energy) && game.level == old(game.level)
      ensures event == EnemyTick ==>
        report == None && unchanged(storage) &&
        game.enemy == (if old(game.running) then Game.Chase(old(game.enemy), old(game.player)) else old(game.enemy)) &&
        game.health == old(game.health) && game.energy == old(game.energy) && game.distance == old(game.distance) &&
        game.level == old(game.level) && game.timeLeft == old(game.timeLeft) && game.player == old(game.player) &&
        game.running == old(game.running) && game.message == old(game.message)
      ensures event == Countdown && old(game.timeLeft) > 1 ==>
        report == None && unchanged(storage) && game.timeLeft == old(game.timeLeft) - 1 && game.OnlyTimerChanged()
      ensures event == Countdown && old(game.timeLeft) <= 1 ==> game.timeLeft == 0
      ensures event == Countdown && old(game.timeLeft) <= 1 && old(game.running) ==> game.EndedRun(today, report)
      ensures event == Countdown && old(game.timeLeft) <= 1 && !old(game.running) ==>
        report == None && unchanged(storage) && game.OnlyTimerChanged()
      ensures event == VitalsChange && old(game.running) && (old(game.health) <= 0 || old(game.energy) <= 0) ==>
        game.timeLeft == old(game.timeLeft) && game.EndedRun(today, report)
      ensures event == VitalsChange && !(old(game.running) && (old(game.health) <= 0 || old(game.energy) <= 0)) ==>
        report == None && unchanged(game) && unchanged(storage)
      ensures event == FinishButton && old(game.running) ==>
        storage.game == AfterRun(old(storage.game), old(game.distance), today) &&
        game.timeLeft == old(game.timeLeft) && game.EndedRun(today, report)
      ensures event == FinishButton && !old(game.running) ==>
        report == None && unchanged(game) && unchanged(storage)
      ensures old(InSync(today)) ==> InSync(today)
      ensures old(storage.Valid()) ==> storage.Valid()
    {
      report := None;
      match event {
        case Start => game.StartRun();
        case Key(k) => game.KeyPress(k);
        case EnemyTick => game.EnemyTick();
        case Countdown => report := game.CountdownTick(today);
        case VitalsChange => report := game.CheckVitals(today);
        case FinishButton => report := game.FinishRun(today);
      }
      if report.Some? {
        gameState := report.value;
      }
    }
  }
}
