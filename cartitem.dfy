/** A line of the cart drawer: its plus, minus and remove buttons ask the cart, through the
    optional `onQuantityChange` and `onRemove` callbacks, for a new quantity or for the
    line's removal. The shop pages hand the cart's `updateQuantity` and `removeItem` in as
    those callbacks. */
module ProductCartItem {
  import opened Wrappers
  import opened Cart
  import Seqs

  /** A call of one of the two callbacks. */
  datatype Request = QuantityChange(id: string, quantity: int) | Removal(id: string)

  /** `handleIncrement`: asks for one more, when a quantity callback is given. */
  function HandleIncrement(item: CartItem, hasQuantityCallback: bool): (r: Option<Request>)
    ensures r.Some? <==> hasQuantityCallback
    ensures r.Some? ==> r.value.QuantityChange? && r.value.id == item.id && r.value.quantity == item.quantity + 1
  {
    if hasQuantityCallback then Some(QuantityChange(item.id, item.quantity + 1)) else None
  }

  /** `handleDecrement`: asks for one fewer, but never from a quantity of 1 or less. */
  function HandleDecrement(item: CartItem, hasQuantityCallback: bool): (r: Option<Request>)
    ensures r.Some? <==> hasQuantityCallback && item.quantity > 1
    ensures r.Some? ==> r.value.QuantityChange? && r.value.id == item.id
                        && r.value.quantity == item.quantity - 1 && r.value.quantity >= 1
  {
    if item.quantity <= 1 then None
    else if hasQuantityCallback then Some(QuantityChange(item.id, item.quantity - 1))
    else None
  }

  /** `handleRemove`: asks for the removal of this line, when a remove callback is given. */
  function HandleRemove(item: CartItem, hasRemoveCallback: bool): (r: Option<Request>)
    ensures r.Some? <==> hasRemoveCallback
    ensures r.Some? ==> r.value == Removal(item.id)
  {
    if hasRemoveCallback then Some(Removal(item.id)) else None
  }

  /** What the cart's lines become when the request reaches `updateQuantity` or
      `removeItem`. */
  function Applied(items: seq<CartItem>, r: Option<Request>): seq<CartItem> {
    match r
    case None => items
    case Some(QuantityChange(id, q)) => WithQuantity(items, id, q)
    case Some(Removal(id)) => Removed(items, id)
  }

  predicate AllPositive(items: seq<CartItem>) {
    forall i :: 0 <= i < |items| ==> items[i].quantity >= 1
  }

  /** A request from one of the line's buttons. */
  datatype Button = Plus | Minus | Trash

  function Pressed(b: Button, item: CartItem, hasQuantityCallback: bool, hasRemoveCallback: bool): Option<Request> {
    match b
    case Plus => HandleIncrement(item, hasQuantityCallback)
    case Minus => HandleDecrement(item, hasQuantityCallback)
    case Trash => HandleRemove(item, hasRemoveCallback)
  }

  /** Pressing a line's buttons keeps every quantity of the cart at 1 or more. */
  lemma ButtonsKeepPositive(items: seq<CartItem>, k: nat, b: Button, hasQuantityCallback: bool, hasRemoveCallback: bool)
    requires k < |items| && AllPositive(items)
    ensures AllPositive(Applied(items, Pressed(b, items[k], hasQuantityCallback, hasRemoveCallback)))
  {
    var r := Pressed(b, items[k], hasQuantityCallback, hasRemoveCallback);
    match r
    case None =>
    case Some(QuantityChange(id, q)) => SetKeepsPositive(items, id, q);
    case Some(Removal(id)) => RemovalKeepsPositive(items, id);
  }

  lemma SetKeepsPositive(items: seq<CartItem>, id: string, q: int)
    requires AllPositive(items) && q >= 1
    ensures AllPositive(WithQuantity(items, id, q))
  {
    var after := WithQuantity(items, id, q);
    forall i | 0 <= i < |after|
      ensures after[i].quantity >= 1
    {
      if items[i].id == id {
        assert after[i] == items[i].(quantity := q);
      } else {
        assert after[i] == items[i];
      }
    }
  }

  lemma RemovalKeepsPositive(items: seq<CartItem>, id: string)
    requires AllPositive(items)
    ensures AllPositive(Removed(items, id))
  {
    var after := Removed(items, id);
    assert after == Seqs.Filter(items, OtherThan(id));
    forall i | 0 <= i < |after|
      ensures after[i].quantity >= 1
    {
      Seqs.FilterMember(items, OtherThan(id), after[i]);
      var j :| 0 <= j < |items| && items[j] == after[i];
    }
  }

  /** The minus button asks for nothing at a quantity of 1. */
  lemma MinusAtOne(item: CartItem, hasQuantityCallback: bool)
    requires item.quantity == 1
    ensures HandleDecrement(item, hasQuantityCallback).None?
  {
  }

  /** On the cart store: the request goes to `updateQuantity` or `removeItem`. */
  method Deliver(store: CartStore, r: Option<Request>)
    modifies store
    ensures store.items == Applied(old(store.items), r)
    ensures store.isOpen == old(store.isOpen) && store.storage == old(store.storage)
    ensures store.location == old(store.location)
  {
    match r {
      case None =>
      case Some(QuantityChange(id, q)) => store.UpdateQuantity(id, q);
      case Some(Removal(id)) => store.RemoveItem(id);
    }
  }
}
