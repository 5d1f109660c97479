/** The product card section: each card keeps its own quantity counter, which never drops
    below 1 by its minus button, and a click on a card opens the product. The section shows
    the shop's fetched products when there are any, and otherwise the products it was given. */
module ProductCardThree {
  import opened Wrappers
  import opened ProductApi

  /** `product.initialQuantity || 1`: an absent or zero initial quantity starts at 1; any
      other number, including a negative one, is kept. */
  function InitialQuantity(initialQuantity: Option<int>): (q: int)
    ensures q == 1 <==> initialQuantity.None? || initialQuantity.value in {0, 1}
    ensures initialQuantity.Some? && initialQuantity.value != 0 ==> q == initialQuantity.value
  {
    match initialQuantity
    case None => 1
    case Some(n) => if n != 0 then n else 1
  }

  /** A card started from an absent or positive initial quantity starts at 1 or more. */
  lemma InitialPositive(initialQuantity: Option<int>)
    requires initialQuantity.Some? ==> initialQuantity.value >= 0
    ensures InitialQuantity(initialQuantity) >= 1
  {
  }

  /** The card's two quantity buttons. */
  datatype Step = Plus | Minus

  /** The quantity after a press: plus adds one; minus takes one away only above 1. */
  function Stepped(quantity: int, step: Step): (q: int)
    ensures step == Plus ==> q == quantity + 1
    ensures step == Minus ==> q == (if quantity > 1 then quantity - 1 else quantity)
  {
    match step
    case Plus => quantity + 1
    case Minus => if quantity > 1 then quantity - 1 else quantity
  }

  /** Whether a press changes the quantity (and so reaches `onQuantityChange`). */
  predicate Changes(quantity: int, step: Step) {
    step == Plus || quantity > 1
  }

  /** The quantity after a series of presses. */
  function Counter(quantity: int, steps: seq<Step>): int
    decreases |steps|
  {
    if steps == [] then quantity else Counter(Stepped(quantity, steps[0]), steps[1..])
  }

  /** Once at 1 or more, the counter stays at 1 or more whatever is pressed. */
  lemma {:induction false} CounterStaysPositive(quantity: int, steps: seq<Step>)
    requires quantity >= 1
    ensures Counter(quantity, steps) >= 1
    decreases |steps|
  {
    if steps != [] {
      CounterStaysPositive(Stepped(quantity, steps[0]), steps[1..]);
    }
  }

  /** Presses of plus alone add one each. */
  lemma {:induction false} PlusOnly(quantity: int, steps: seq<Step>)
    requires forall i :: 0 <= i < |steps| ==> steps[i] == Plus
    ensures Counter(quantity, steps) == quantity + |steps|
    decreases |steps|
  {
    if steps != [] {
      PlusOnly(quantity + 1, steps[1..]);
    }
  }

  /** Presses of minus alone never go below 1, and stop there. */
  lemma {:induction false} MinusOnly(quantity: int, steps: seq<Step>)
    requires quantity >= 1
    requires forall i :: 0 <= i < |steps| ==> steps[i] == Minus
    ensures Counter(quantity, steps) == (if quantity - |steps| >= 1 then quantity - |steps| else 1)
    decreases |steps|
  {
    if steps != [] {
      MinusOnly(Stepped(quantity, Minus), steps[1..]);
    }
  }

  /** What a click on a card does. */
  datatype Effect =
    | Buy(productId: string, quantity: int)   // `onBuyClick(product.id, quantity)`
    | Navigate(path: string)                  // `router.push(path)`
    | OwnClick(productId: string)             // the product's own `onProductClick`
    | NoEffect

  /** `handleProductClick`: products from the shop's API open their page; any other product
      runs its own click handler, when it has one. */
  function ProductClick(isFromApi: bool, product: Product, hasOwnClick: bool): (e: Effect)
    ensures isFromApi ==> e == Navigate("/shop/" + product.id)
    ensures !isFromApi ==> e == (if hasOwnClick then OwnClick(product.id) else NoEffect)
  {
    if isFromApi then Navigate("/shop/" + product.id)
    else if hasOwnClick then OwnClick(product.id)
    else NoEffect
  }

  /** The page path of a product reads back its id. */
  lemma ProductPathReadsBack(product: Product)
    ensures var e := ProductClick(true, product, false);
            e.Navigate? && |e.path| == 6 + |product.id| && e.path[6..] == product.id
  {
    var p := "/shop/" + product.id;
    assert p[6..] == product.id;
  }

  /** One card's counter and click handling (`ProductCardItem`). `notified` records the values
      handed to `onQuantityChange`, which only a card with that callback receives. */
  class ProductCardItem {
    var quantity: int
    var notified: seq<int>
    const product: Product
    const hasQuantityCallback: bool

    /** Without the callback nothing is handed out; with it, the last value handed out is the
        quantity shown. */
    predicate Synced()
      reads this
    {
      (!hasQuantityCallback ==> notified == [])
      && (notified == [] || notified[|notified| - 1] == quantity)
    }

    constructor(product0: Product, initialQuantity: Option<int>, hasQuantityCallback0: bool)
      ensures product == product0 && hasQuantityCallback == hasQuantityCallback0
      ensures quantity == InitialQuantity(initialQuantity) && notified == []
      ensures Synced()
    {
      product := product0;
      hasQuantityCallback := hasQuantityCallback0;
      quantity := InitialQuantity(initialQuantity);
      notified := [];
    }

    /** `handleIncrement`: one more, handed to `onQuantityChange` when there is one. */
    method Increment()
      modifies this
      requires Synced()
      ensures quantity == Stepped(old(quantity), Plus)
      ensures notified == old(notified) + (if hasQuantityCallback then [quantity] else [])
      ensures Synced()
    {
      var newQuantity := quantity + 1;
      quantity := newQuantity;
      if hasQuantityCallback {
        notified := notified + [newQuantity];
      }
    }

    /** `handleDecrement`: one fewer and a notification, but only above 1. */
    method Decrement()
      modifies this
      requires Synced()
      ensures quantity == Stepped(old(quantity), Minus)
      ensures notified == old(notified)
                          + (if hasQuantityCallback && Changes(old(quantity), Minus) then [quantity] else [])
      ensures Synced()
    {
      if quantity > 1 {
        var newQuantity := quantity - 1;
        quantity := newQuantity;
        if hasQuantityCallback {
          notified := notified + [newQuantity];
        }
      }
    }

    /** `handleClick`: the buy callback with the current quantity, for a product of the API
        when one is given; otherwise the product's click handler, here `productClick`. */
    method Click(isFromApi: bool, hasBuyClick: bool, productClick: Effect) returns (e: Effect)
      ensures isFromApi && hasBuyClick ==> e == Buy(product.id, quantity)
      ensures !(isFromApi && hasBuyClick) ==> e == productClick
    {
      if isFromApi && hasBuyClick {
        e := Buy(product.id, quantity);
      } else {
        e := productClick;
      }
    }
  }

  /** `isFromApi ? fetchedProducts : productsProp`: the fetched products when there are any. */
  function CardProducts(fetched: seq<Product>, given: Option<seq<Product>>): (r: Option<seq<Product>>)
    ensures |fetched| > 0 ==> r == Some(fetched)
    ensures |fetched| == 0 ==> r == given
  {
    if |fetched| > 0 then Some(fetched) else given
  }

  /** What the section shows. */
  datatype View = Loading | Nothing | Cards(products: seq<Product>, isFromApi: bool)

  /** The section: a loading notice while the products load and none were given, nothing
      for an empty list, and otherwise one card per product. */
  function Section(fetched: seq<Product>, isLoading: bool, given: Option<seq<Product>>): (v: View)
    ensures v == Loading <==> isLoading && given.None?
    ensures v.Cards? ==> v.isFromApi == (|fetched| > 0) && |v.products| > 0
    ensures v.Cards? && |fetched| > 0 ==> v.products == fetched
    ensures v.Cards? && |fetched| == 0 ==> given == Some(v.products)
    ensures v == Nothing <==> !(isLoading && given.None?) && |fetched| == 0
                              && (given.None? || |given.value| == 0)
  {
    if isLoading && given.None? then Loading
    else
      match CardProducts(fetched, given)
      case None => Nothing
      case Some(products) => if |products| == 0 then Nothing else Cards(products, |fetched| > 0)
  }

  /** A click on a card of the section: the section passes no buy callback and wraps each
      product's click in `handleProductClick`. */
  method SectionClick(card: ProductCardItem, isFromApi: bool, hasOwnClick: bool) returns (e: Effect)
    ensures e == ProductClick(isFromApi, card.product, hasOwnClick)
  {
    e := card.Click(isFromApi, false, ProductClick(isFromApi, card.product, hasOwnClick));
  }

  /** So a click in the section never buys: it opens the product's page for a product of the
      API and runs the product's own handler otherwise. */
  lemma SectionNeverBuys(isFromApi: bool, product: Product, hasOwnClick: bool)
    ensures !ProductClick(isFromApi, product, hasOwnClick).Buy?
    ensures isFromApi ==> ProductClick(isFromApi, product, hasOwnClick).path == "/shop/" + product.id
  {
  }
}
