/** The cart hook: the list of cart lines, the open flag of the cart drawer, the copy of the
    lines kept in `localStorage`, and the current URL, whose `success` and `session_id`
    parameters mark the return from a completed checkout. The derived values are the total
    text, the item count and the checkout items. */
module Cart {
  import opened Wrappers
  import opened Text
  import opened Numbers
  import opened Seqs
  import opened Urls
  import opened Checkout

  /** A cart line: the drawer's cart item with the id of its product. */
  datatype CartItem = CartItem(
    id: string,
    productId: string,
    name: string,
    variants: Option<seq<string>>,
    price: string,
    quantity: int,
    imageSrc: string,
    imageAlt: Option<string>)

  predicate HasId(items: seq<CartItem>, id: string) {
    exists i :: 0 <= i < |items| && items[i].id == id
  }

  /** No two lines share an id: what adding through `Added` keeps. */
  predicate UniqueIds(items: seq<CartItem>) {
    forall i, j :: 0 <= i < j < |items| ==> items[i].id != items[j].id
  }

  // ---------------------------------------------------------------------------------------
  // The three list updates

  /** Every line with id `id` gets `q` more. */
  function Bumped(items: seq<CartItem>, id: string, q: int): (r: seq<CartItem>)
    ensures |r| == |items|
    ensures forall i :: 0 <= i < |items| && items[i].id != id ==> r[i] == items[i]
    ensures forall i :: 0 <= i < |items| && items[i].id == id ==> r[i] == items[i].(quantity := items[i].quantity + q)
  {
    if items == [] then []
    else
      var head := if items[0].id == id then items[0].(quantity := items[0].quantity + q) else items[0];
      [head] + Bumped(items[1..], id, q)
  }

  /** `addItem`: a line whose id is already in the cart adds its quantity to that line;
      otherwise it goes at the end. */
  function Added(items: seq<CartItem>, item: CartItem): (r: seq<CartItem>)
    ensures HasId(items, item.id) ==> r == Bumped(items, item.id, item.quantity)
    ensures !HasId(items, item.id) ==> r == items + [item]
    ensures forall i :: 0 <= i < |items| ==> r[i].id == items[i].id
    ensures HasId(r, item.id)
  {
    if HasId(items, item.id) then Bumped(items, item.id, item.quantity)
    else
      assert (items + [item])[|items|] == item;
      items + [item]
  }

  /** `updateQuantity`: every line with id `id` gets quantity `q`. */
  function WithQuantity(items: seq<CartItem>, id: string, q: int): (r: seq<CartItem>)
    ensures |r| == |items|
    ensures forall i :: 0 <= i < |items| && items[i].id != id ==> r[i] == items[i]
    ensures forall i :: 0 <= i < |items| && items[i].id == id ==> r[i] == items[i].(quantity := q)
  {
    if items == [] then []
    else
      var head := if items[0].id == id then items[0].(quantity := q) else items[0];
      [head] + WithQuantity(items[1..], id, q)
  }

  function OtherThan(id: string): CartItem -> bool {
    (item: CartItem) => item.id != id
  }

  /** `removeItem`: the lines with another id, in order. */
  function Removed(items: seq<CartItem>, id: string): (r: seq<CartItem>)
    ensures !HasId(r, id)
    ensures IsSubseq(r, items)
    ensures forall i :: 0 <= i < |items| && items[i].id != id ==> items[i] in r
    ensures forall x | x in items :: multiset(r)[x] == if x.id != id then multiset(items)[x] else 0
  {
    FilterIsSubseq(items, OtherThan(id));
    Filter(items, OtherThan(id))
  }

  lemma {:induction false} BumpedAbsent(items: seq<CartItem>, id: string, q: int)
    requires !HasId(items, id)
    ensures Bumped(items, id, q) == items
  {
  }

  // ---------------------------------------------------------------------------------------
  // Ids stay unique

  lemma AddedKeepsUnique(items: seq<CartItem>, item: CartItem)
    requires UniqueIds(items)
    ensures UniqueIds(Added(items, item))
  {
  }

  lemma WithQuantityKeepsUnique(items: seq<CartItem>, id: string, q: int)
    requires UniqueIds(items)
    ensures UniqueIds(WithQuantity(items, id, q))
  {
  }

  lemma {:induction false} RemovedKeepsUnique(items: seq<CartItem>, id: string)
    requires UniqueIds(items)
    ensures UniqueIds(Removed(items, id))
  {
    if items != [] {
      var p := OtherThan(id);
      var rest := Filter(items[1..], p);
      UniqueTail(items);
      RemovedKeepsUnique(items[1..], id);
      if p(items[0]) {
        forall x | x in rest ensures x.id != items[0].id {
          FilterMember(items[1..], p, x);
          var k :| 0 <= k < |items[1..]| && items[1..][k] == x;
          assert items[k + 1] == x;
        }
        UniqueCons(items[0], rest);
        assert Filter(items, p) == [items[0]] + rest;
      }
    }
  }

  lemma UniqueTail(items: seq<CartItem>)
    requires UniqueIds(items) && items != []
    ensures UniqueIds(items[1..])
  {
    forall i, j | 0 <= i < j < |items[1..]| ensures items[1..][i].id != items[1..][j].id {
      assert items[1..][i] == items[i + 1] && items[1..][j] == items[j + 1];
    }
  }

  lemma UniqueCons(item: CartItem, rest: seq<CartItem>)
    requires UniqueIds(rest) && forall x | x in rest :: x.id != item.id
    ensures UniqueIds([item] + rest)
  {
    var s := [item] + rest;
    forall i, j | 0 <= i < j < |s| ensures s[i].id != s[j].id {
      assert s[j] == rest[j - 1];
      if i > 0 {
        assert s[i] == rest[i - 1];
      }
    }
  }

  // ---------------------------------------------------------------------------------------
  // Item count

  /** `itemCount`: the sum of the quantities. With every line at 1 or more, as the cart's
      buttons keep them, each line counts at least once. */
  function Count(items: seq<CartItem>): (n: int)
    ensures (forall i :: 0 <= i < |items| ==> items[i].quantity >= 1) ==> n >= |items|
  {
    if items == [] then 0 else items[0].quantity + Count(items[1..])
  }

  lemma {:induction false} CountAppend(items: seq<CartItem>, item: CartItem)
    ensures Count(items + [item]) == Count(items) + item.quantity
  {
    if items != [] {
      assert (items + [item])[1..] == items[1..] + [item];
      CountAppend(items[1..], item);
    }
  }

  lemma {:induction false} CountBumped(items: seq<CartItem>, k: nat, q: int)
    requires UniqueIds(items) && k < |items|
    ensures Count(Bumped(items, items[k].id, q)) == Count(items) + q
  {
    var id := items[k].id;
    if k == 0 {
      assert !HasId(items[1..], id) by {
        forall j | 0 <= j < |items[1..]| ensures items[1..][j].id != id {
          assert items[1..][j] == items[j + 1];
        }
      }
      BumpedAbsent(items[1..], id, q);
    } else {
      assert items[1..][k - 1] == items[k];
      CountBumped(items[1..], k - 1, q);
    }
  }

  /** Adding a line raises the count by its quantity, whether it is new or not. */
  lemma AddedCount(items: seq<CartItem>, item: CartItem)
    requires UniqueIds(items)
    ensures Count(Added(items, item)) == Count(items) + item.quantity
  {
    if HasId(items, item.id) {
      var k :| 0 <= k < |items| && items[k].id == item.id;
      CountBumped(items, k, item.quantity);
    } else {
      CountAppend(items, item);
    }
  }

  /** Setting the quantity of the line at `k` changes the count by the difference. */
  lemma {:induction false} WithQuantityCount(items: seq<CartItem>, k: nat, q: int)
    requires UniqueIds(items) && k < |items|
    ensures Count(WithQuantity(items, items[k].id, q)) == Count(items) - items[k].quantity + q
  {
    var id := items[k].id;
    if k == 0 {
      assert forall j :: 0 <= j < |items[1..]| ==> items[1..][j].id != id by {
        forall j | 0 <= j < |items[1..]| ensures items[1..][j].id != id {
          assert items[1..][j] == items[j + 1];
        }
      }
      assert WithQuantity(items[1..], id, q) == items[1..];
    } else {
      assert items[1..][k - 1] == items[k];
      WithQuantityCount(items[1..], k - 1, q);
    }
  }

  /** Removing the line at `k` lowers the count by its quantity. */
  lemma {:induction false} RemovedCount(items: seq<CartItem>, k: nat)
    requires UniqueIds(items) && k < |items|
    ensures Count(Removed(items, items[k].id)) == Count(items) - items[k].quantity
  {
    FilteredCount(items, k);
  }

  lemma {:induction false} FilteredCount(items: seq<CartItem>, k: nat)
    requires UniqueIds(items) && k < |items|
    ensures Count(Filter(items, OtherThan(items[k].id))) == Count(items) - items[k].quantity
  {
    var id := items[k].id;
    var p := OtherThan(id);
    if k == 0 {
      assert forall j :: 0 <= j < |items[1..]| ==> p(items[1..][j]) by {
        forall j | 0 <= j < |items[1..]| ensures p(items[1..][j]) {
          assert items[1..][j] == items[j + 1];
        }
      }
      FilterAll(items[1..], p);
    } else {
      assert items[1..][k - 1] == items[k];
      FilteredCount(items[1..], k - 1);
      assert Filter(items, p) == [items[0]] + Filter(items[1..], p);
    }
  }

  // ---------------------------------------------------------------------------------------
  // Total

  /** `a + b` on numbers: `NaN` absorbs everything, opposite infinities give `NaN`. */
  function Plus(a: Num, b: Num): (r: Num)
    ensures a.Finite? && b.Finite? ==> r == Finite(a.value + b.value)
    ensures a.NaN? || b.NaN? ==> r.NaN?
  {
    match (a, b)
    case (Finite(x), Finite(y)) => Finite(x + y)
    case (NaN, _) => NaN
    case (_, NaN) => NaN
    case (Infinite(n), Infinite(m)) => if n == m then a else NaN
    case (Infinite(_), _) => a
    case (_, Infinite(_)) => b
  }

  /** `a * q` for an integer `q`: an infinity times zero is `NaN`. */
  function Times(a: Num, q: int): (r: Num)
    ensures a.Finite? ==> r == Finite(a.value * (q as real))
    ensures a.NaN? ==> r.NaN?
  {
    if a.Finite? then Finite(a.value * (q as real))
    else if a.NaN? || q == 0 then NaN
    else Infinite(if q > 0 then a.negative else !a.negative)
  }

  /** `x * q`, written as a sum of `q` copies of `x` so that the total stays linear. */
  function Multiple(x: real, q: int): real
    decreases if q < 0 then -q else q
  {
    if q == 0 then 0.0
    else if q > 0 then Multiple(x, q - 1) + x
    else Multiple(x, q + 1) - x
  }

  lemma {:induction false} MultipleIsProduct(x: real, q: int)
    ensures Multiple(x, q) == x * (q as real)
    decreases if q < 0 then -q else q
  {
    if q > 0 {
      MultipleIsProduct(x, q - 1);
    } else if q < 0 {
      MultipleIsProduct(x, q + 1);
    }
  }

  /** What a line priced `p` with quantity `q` adds to the total when `p` is a number. */
  function LineAmount(p: Num, q: int): real {
    if p.Finite? then Multiple(p.value, q) else 0.0
  }

  lemma TimesIsLineAmount(p: Num, q: int)
    requires p.Finite?
    ensures Times(p, q) == Finite(LineAmount(p, q))
  {
    MultipleIsProduct(p.value, q);
  }

  /** What a line adds to the total when its price text reads as `value(item.price)`. */
  function Amount(item: CartItem, value: string -> Num): real {
    LineAmount(value(item.price), item.quantity)
  }

  /** The sum of the line amounts. The sum lemmas below hold for any reading of the price
      texts; `total` reads them with `PriceValue`. */
  function Sum(items: seq<CartItem>, value: string -> Num): real {
    if items == [] then 0.0 else Amount(items[0], value) + Sum(items[1..], value)
  }

  /** Every price text reads as a number. */
  predicate AllRead(items: seq<CartItem>, value: string -> Num) {
    forall i :: 0 <= i < |items| ==> value(items[i].price).Finite?
  }

  lemma AllReadCons(items: seq<CartItem>, value: string -> Num)
    requires items != []
    ensures AllRead(items, value) <==> value(items[0].price).Finite? && AllRead(items[1..], value)
  {
    assert forall j :: 0 <= j < |items[1..]| ==> items[1..][j] == items[j + 1];
    if !AllRead(items, value) {
      var j :| 0 <= j < |items| && !value(items[j].price).Finite?;
      assert j == 0 || !value(items[1..][j - 1].price).Finite?;
    }
  }

  /** No price text reads as an infinity (as none does with `parseFloat`). */
  predicate NoneInfinite(items: seq<CartItem>, value: string -> Num) {
    forall i :: 0 <= i < |items| ==> !value(items[i].price).Infinite?
  }

  /** The reduction behind `total`, for a reading `value` of the price texts: each price
      read, times the quantity, summed. It is not a number as soon as one price does not
      read as one, and `NaN` then unless a price reads as an infinity. */
  function TotalOf(items: seq<CartItem>, value: string -> Num): (t: Num)
    ensures AllRead(items, value) ==> t == Finite(Sum(items, value))
    ensures !AllRead(items, value) ==> !t.Finite?
    ensures NoneInfinite(items, value) ==> !t.Infinite?
  {
    if items == [] then Finite(0.0)
    else
      var rest := TotalOf(items[1..], value);
      var p := value(items[0].price);
      AllReadCons(items, value);
      assert NoneInfinite(items, value) ==> NoneInfinite(items[1..], value) by {
        assert forall j :: 0 <= j < |items[1..]| ==> items[1..][j] == items[j + 1];
      }
      if p.Finite? then
        TimesIsLineAmount(p, items[0].quantity);
        Plus(Times(p, items[0].quantity), rest)
      else
        Plus(Times(p, items[0].quantity), rest)
  }

  /** The prices with `$` and `,` removed all read as numbers. */
  predicate PricesParse(items: seq<CartItem>) {
    AllRead(items, PriceValue)
  }

  /** The reduction of `total` itself: the sum when every price parses, else `NaN`. */
  function Total(items: seq<CartItem>): (t: Num)
    ensures PricesParse(items) ==> t == Finite(Sum(items, PriceValue))
    ensures !PricesParse(items) ==> t.NaN?
  {
    assert NoneInfinite(items, PriceValue) by {
      forall i | 0 <= i < |items| ensures !PriceValue(items[i].price).Infinite? {
        PriceValueNotInfinite(items[i].price);
      }
    }
    TotalOf(items, PriceValue)
  }

  lemma PriceValueNotInfinite(price: string)
    ensures !PriceValue(price).Infinite?
  {
  }

  /** `total`: the total with two decimals. It reads "NaN" once a price does not parse, and
      otherwise reads back as the sum rounded to cents. */
  function TotalText(items: seq<CartItem>): (text: string)
    ensures !PricesParse(items) ==> text == "NaN"
    ensures PricesParse(items) ==> ParseFloat(text) == Finite(RoundedTo(Sum(items, PriceValue), 2))
  {
    var t := Total(items);
    if t.Finite? then
      FixedParsesBack(Sum(items, PriceValue), t, ToFixed(t, 2));
      ToFixed(t, 2)
    else ToFixed(t, 2)
  }

  /** An empty cart totals "0.00". */
  lemma EmptyTotalText()
    ensures TotalText([]) == "0.00"
  {
    assert Total([]) == Finite(0.0);
    assert ToFixed(Finite(0.0), 2) == "0.00";
  }

  /** One unparsable price makes the whole total read "NaN". */
  lemma TotalTextNaN(items: seq<CartItem>)
    requires !PricesParse(items)
    ensures TotalText(items) == "NaN"
  {
  }

  /** The total text reads back as the sum rounded to cents (which `RoundedToClose` puts
      within half a cent of the sum). */
  lemma TotalTextParsesBack(items: seq<CartItem>)
    requires PricesParse(items)
    ensures ParseFloat(TotalText(items)) == Finite(RoundedTo(Sum(items, PriceValue), 2))
  {
    FixedParsesBack(Sum(items, PriceValue), Total(items), TotalText(items));
  }

  lemma FixedParsesBack(x: real, t: Num, s: string)
    requires t == Finite(x) && s == ToFixed(t, 2)
    ensures ParseFloat(s) == Finite(RoundedTo(x, 2))
  {
    ToFixedParsesBack(x, 2);
  }

  lemma {:induction false} SumAppend(items: seq<CartItem>, item: CartItem, value: string -> Num)
    ensures Sum(items + [item], value) == Sum(items, value) + Amount(item, value)
  {
    if items != [] {
      assert (items + [item])[1..] == items[1..] + [item];
      SumAppend(items[1..], item, value);
    }
  }

  lemma LineAmountSplit(p: Num, a: int, b: int)
    ensures LineAmount(p, a + b) == LineAmount(p, a) + LineAmount(p, b)
  {
    if p.Finite? {
      MultipleSplit(p.value, a, b);
    }
  }

  lemma MultipleSplit(x: real, a: int, b: int)
    ensures Multiple(x, a + b) == Multiple(x, a) + Multiple(x, b)
  {
    MultipleIsProduct(x, a + b);
    MultipleIsProduct(x, a);
    MultipleIsProduct(x, b);
    assert x * ((a + b) as real) == x * (a as real) + x * (b as real);
  }

  lemma AmountSplit(item: CartItem, q: int, value: string -> Num)
    ensures Amount(item.(quantity := item.quantity + q), value) == Amount(item, value) + Amount(item.(quantity := q), value)
  {
    LineAmountSplit(value(item.price), item.quantity, q);
  }

  lemma {:induction false} SumBumped(items: seq<CartItem>, k: nat, q: int, value: string -> Num)
    requires UniqueIds(items) && k < |items|
    ensures Sum(Bumped(items, items[k].id, q), value) == Sum(items, value) + Amount(items[k].(quantity := q), value)
  {
    var id := items[k].id;
    if k == 0 {
      assert !HasId(items[1..], id) by {
        forall j | 0 <= j < |items[1..]| ensures items[1..][j].id != id {
          assert items[1..][j] == items[j + 1];
        }
      }
      BumpedAbsent(items[1..], id, q);
      AmountSplit(items[0], q, value);
    } else {
      assert items[1..][k - 1] == items[k];
      SumBumped(items[1..], k - 1, q, value);
    }
  }

  /** Adding a line raises the sum by its amount; a line already in the cart is priced at
      the price that line already has. */
  lemma AddedSum(items: seq<CartItem>, item: CartItem, value: string -> Num)
    requires UniqueIds(items)
    ensures !HasId(items, item.id) ==> Sum(Added(items, item), value) == Sum(items, value) + Amount(item, value)
    ensures forall k :: 0 <= k < |items| && items[k].id == item.id ==>
      Sum(Added(items, item), value) == Sum(items, value) + Amount(items[k].(quantity := item.quantity), value)
  {
    if HasId(items, item.id) {
      var k :| 0 <= k < |items| && items[k].id == item.id;
      SumBumped(items, k, item.quantity, value);
    } else {
      SumAppend(items, item, value);
    }
  }

  /** Removing the line at `k` lowers the sum by its amount. */
  lemma {:induction false} RemovedSum(items: seq<CartItem>, k: nat, value: string -> Num)
    requires UniqueIds(items) && k < |items|
    ensures Sum(Removed(items, items[k].id), value) == Sum(items, value) - Amount(items[k], value)
  {
    var id := items[k].id;
    var p := OtherThan(id);
    if k == 0 {
      assert forall j :: 0 <= j < |items[1..]| ==> p(items[1..][j]) by {
        forall j | 0 <= j < |items[1..]| ensures p(items[1..][j]) {
          assert items[1..][j] == items[j + 1];
        }
      }
      FilterAll(items[1..], p);
    } else {
      assert items[1..][k - 1] == items[k];
      RemovedSum(items[1..], k - 1, value);
      assert Filter(items, p) == [items[0]] + Filter(items[1..], p);
    }
  }

  // ---------------------------------------------------------------------------------------
  // Checkout items

  /** Lower case throughout. */
  predicate LowerCased(s: string) {
    forall i :: 0 <= i < |s| ==> !IsUpper(s[i])
  }

  /** One variant string as a metadata entry: the first two `:`-separated parts, trimmed,
      the key lower-cased; nothing when either is empty. */
  function Entry(v: string): (e: Option<(string, string)>)
    ensures e.Some? ==> e.value.0 != "" && LowerCased(e.value.0) && Trimmed(e.value.1)
  {
    var parts := Split(v, ':');
    var key := Trim(parts[0]);
    var value := if |parts| > 1 then Trim(parts[1]) else "";
    if key != "" && value != "" then
      LowerOfLower(key);
      Some((ToLower(key), value))
    else None
  }

  lemma LowerOfLower(s: string)
    ensures LowerCased(ToLower(s))
  {
    var l := ToLower(s);
    forall i | 0 <= i < |l| ensures !IsUpper(l[i]) {
      assert l[i] == ToLowerChar(s[i]);
    }
  }

  /** What `Entry` makes of any variant string: the key is the text before the first `:`,
      trimmed and lower-cased; the value is the text between the first and the second `:`
      (or the end), trimmed; and there is no entry when either trims to nothing. */
  lemma EntryMeaning(v: string)
    ensures var k := IndexOf(v, ':');
      var key := Trim(v[..k]);
      var value := if k < |v| then Trim(v[k + 1..][..IndexOf(v[k + 1..], ':')]) else "";
      Entry(v) == if key != "" && value != "" then Some((ToLower(key), value)) else None
  {
    var k := IndexOf(v, ':');
    SplitHead(v, ':');
    if k < |v| {
      SplitHead(v[k + 1..], ':');
      assert Split(v, ':')[1] == Split(v[k + 1..], ':')[0];
    }
  }

  /** Only the second `:`-part is the value: "Time: 10:30" gives the entry `time` = "10". */
  lemma EntryOfTime()
    ensures Entry("Time: 10:30") == Some(("time", "10"))
  {
    var rest := [' '] + "10" + [':'] + "30";
    assert rest == " 10:30";
    assert "Time" + [':'] + rest == "Time: 10:30";
    EntryKeepsSecond("Time", "10", "30");
    TimeLower();
  }

  lemma TimeLower()
    ensures ToLower("Time") == "time"
  {
    var t := ToLower("Time");
    assert t[0] == 't' && t[1..] == "ime";
  }

  /** A further `:` after the value cuts the value off there. */
  lemma EntryKeepsSecond(heading: string, value: string, more: string)
    requires Trimmed(heading) && Trimmed(value) && ':' !in heading && ':' !in value
    ensures Entry(heading + [':'] + ([' '] + value + [':'] + more)) == Some((ToLower(heading), value))
  {
    var padded := [' '] + value;
    assert ':' !in padded;
    var rest := padded + [':'] + more;
    FirstSeparator(heading, rest, ':');
    FirstSeparator(padded, more, ':');
    TrimsOfLabelled(heading, value);
    EntryMeaning(heading + [':'] + rest);
  }

  /** The first separator of `a + [c] + b`, for `a` without one, is the one after `a`. */
  lemma FirstSeparator(a: string, b: string, c: char)
    requires c !in a
    ensures var s := a + [c] + b;
      IndexOf(s, c) == |a| && s[..|a|] == a && s[|a| + 1..] == b
  {
    var s := a + [c] + b;
    assert s[|a|] == c;
    assert forall i :: 0 <= i < |a| ==> s[i] == a[i];
    assert s[..|a|] == a && s[|a| + 1..] == b;
  }

  /** A variant string written as `heading: value` gives its lower-cased heading and its value. */
  lemma EntryOfLabelled(heading: string, value: string)
    requires Trimmed(heading) && Trimmed(value) && ':' !in heading && ':' !in value
    ensures Entry(heading + ": " + value) == Some((ToLower(heading), value))
  {
    LabelledParts(heading, value);
    EntryOfParts(heading + ": " + value, heading, " " + value, value);
  }

  lemma LabelledParts(heading: string, value: string)
    requires Trimmed(heading) && Trimmed(value) && ':' !in heading && ':' !in value
    ensures Split(heading + ": " + value, ':') == [heading, " " + value]
    ensures Trim(heading) == heading != "" && Trim(" " + value) == value != ""
  {
    SplitLabelled(heading, value);
    TrimsOfLabelled(heading, value);
  }

  lemma TrimsOfLabelled(heading: string, value: string)
    requires Trimmed(heading) && Trimmed(value)
    ensures Trim(heading) == heading != "" && Trim(" " + value) == value != ""
  {
    TrimOfTrimmed(heading, "");
    assert "" + heading == heading;
    TrimOfTrimmed(value, " ");
  }

  lemma SplitLabelled(heading: string, value: string)
    requires ':' !in heading && ':' !in value
    ensures Split(heading + ": " + value, ':') == [heading, " " + value]
  {
    assert heading + ": " + value == heading + [':'] + (" " + value);
    assert ':' !in " " + value;
    SplitPair(heading, " " + value, ':');
  }

  lemma EntryOfParts(s: string, key: string, rest: string, value: string)
    requires Split(s, ':') == [key, rest] && Trim(key) == key != "" && Trim(rest) == value != ""
    ensures Entry(s) == Some((ToLower(key), value))
  {
  }

  /** The entry of each variant string, in order. */
  function Entries(variants: seq<string>): (es: seq<Option<(string, string)>>)
    ensures |es| == |variants|
    ensures forall i :: 0 <= i < |variants| ==> es[i] == Entry(variants[i])
  {
    seq(|variants|, i requires 0 <= i < |variants| => Entry(variants[i]))
  }

  /** The object the entries fill: later entries overwrite earlier ones. */
  function Collect(es: seq<Option<(string, string)>>): map<string, string> {
    if es == [] then map[]
    else
      var m := Collect(es[..|es| - 1]);
      match es[|es| - 1]
      case None => m
      case Some((k, v)) => m[k := v]
  }

  /** A key is in the object exactly when some entry has it, and then some entry holds it
      with the value the object shows. */
  lemma {:induction false} CollectKeys(es: seq<Option<(string, string)>>, k: string)
    ensures k in Collect(es) <==> exists i :: 0 <= i < |es| && es[i].Some? && es[i].value.0 == k
    ensures k in Collect(es) ==> exists i :: 0 <= i < |es| && es[i] == Some((k, Collect(es)[k]))
  {
    if es != [] {
      var init := es[..|es| - 1];
      CollectKeys(init, k);
      assert forall i :: 0 <= i < |init| ==> init[i] == es[i];
      if k in Collect(es) {
        if es[|es| - 1].Some? && es[|es| - 1].value.0 == k {
          assert es[|es| - 1] == Some((k, Collect(es)[k]));
        } else {
          var i :| 0 <= i < |init| && init[i] == Some((k, Collect(init)[k]));
          assert es[i] == Some((k, Collect(es)[k]));
        }
      }
    }
  }

  /** The metadata of a line's variants: lower-case keys with trimmed values. */
  function MetadataOf(variants: seq<string>): (m: map<string, string>)
    ensures forall k | k in m :: LowerCased(k) && Trimmed(m[k])
  {
    var es := Entries(variants);
    assert forall k | k in Collect(es) :: LowerCased(k) && Trimmed(Collect(es)[k]) by {
      forall k | k in Collect(es) ensures LowerCased(k) && Trimmed(Collect(es)[k]) {
        CollectKeys(es, k);
        var i :| 0 <= i < |es| && es[i] == Some((k, Collect(es)[k]));
        assert Entry(variants[i]).Some?;
      }
    }
    Collect(es)
  }

  /** The keys are exactly the keys of the entries, lower case, with trimmed values taken
      from the entries. */
  lemma MetadataKeys(variants: seq<string>, k: string)
    ensures k in MetadataOf(variants) <==>
      exists i :: 0 <= i < |variants| && Entry(variants[i]).Some? && Entry(variants[i]).value.0 == k
    ensures k in MetadataOf(variants) ==>
      exists i :: 0 <= i < |variants| && Entry(variants[i]) == Some((k, MetadataOf(variants)[k]))
    ensures k in MetadataOf(variants) ==> LowerCased(k) && Trimmed(MetadataOf(variants)[k])
  {
    var es := Entries(variants);
    CollectKeys(es, k);
    if k in MetadataOf(variants) {
      var i :| 0 <= i < |es| && es[i] == Some((k, Collect(es)[k]));
      assert Entry(variants[i]) == Some((k, MetadataOf(variants)[k]));
    }
  }

  /** The `forEach` that fills a line's metadata. */
  method VariantMetadata(variants: seq<string>) returns (m: map<string, string>)
    ensures m == MetadataOf(variants)
  {
    ghost var es := Entries(variants);
    m := map[];
    var i := 0;
    while i < |variants|
      invariant 0 <= i <= |variants|
      invariant m == Collect(es[..i])
    {
      var e := Entry(variants[i]);
      CollectStep(es, i);
      if e.Some? {
        m := m[e.value.0 := e.value.1];
      }
      i := i + 1;
    }
    assert es[..i] == es;
  }

  lemma CollectStep(es: seq<Option<(string, string)>>, i: nat)
    requires i < |es|
    ensures Collect(es[..i + 1]) == if es[i].Some? then Collect(es[..i])[es[i].value.0 := es[i].value.1] else Collect(es[..i])
  {
    assert es[..i + 1][..i] == es[..i];
  }

  function AsItemMetadata(m: map<string, string>): (r: ItemMetadata)
    ensures r.Keys == m.Keys && forall k :: k in m ==> r[k] == IStr(m[k])
  {
    map k | k in m :: IStr(m[k])
  }

  function VariantMap(item: CartItem): map<string, string> {
    if item.variants.Some? then MetadataOf(item.variants.value) else map[]
  }

  /** The checkout item of a line: its metadata is `undefined` when it would be empty. */
  function CheckoutItemOf(item: CartItem): (c: CheckoutItem)
    ensures c.productId == item.productId && c.quantity == item.quantity
    ensures c.imageSrc == Some(item.imageSrc) && c.imageAlt == item.imageAlt
    ensures c.metadata.None? <==> |VariantMap(item)| == 0
    ensures c.metadata.Some? ==> c.metadata.value == AsItemMetadata(VariantMap(item))
  {
    var m := VariantMap(item);
    CheckoutItem(item.productId, item.quantity, Some(item.imageSrc), item.imageAlt,
                 if |m| > 0 then Some(AsItemMetadata(m)) else None)
  }

  lemma CheckoutItemsStep(items: seq<CartItem>, r: seq<CheckoutItem>, c: CheckoutItem)
    requires |r| < |items| && c == CheckoutItemOf(items[|r|])
    requires forall j :: 0 <= j < |r| ==> r[j] == CheckoutItemOf(items[j])
    ensures forall j :: 0 <= j < |r| + 1 ==> (r + [c])[j] == CheckoutItemOf(items[j])
  {
  }

  /** The callback `getCheckoutItems` maps each line with. */
  method CheckoutItemFor(item: CartItem) returns (c: CheckoutItem)
    ensures c == CheckoutItemOf(item)
  {
    var m: map<string, string> := map[];
    if item.variants.Some? && |item.variants.value| > 0 {
      m := VariantMetadata(item.variants.value);
    }
    var metadata := if |m| > 0 then Some(AsItemMetadata(m)) else None;
    c := CheckoutItem(item.productId, item.quantity, Some(item.imageSrc), item.imageAlt, metadata);
  }

  // ---------------------------------------------------------------------------------------
  // The hook's state

  /** `localStorage["shop_cart_items"]`: absent, a saved cart, or text that is not a cart. */
  datatype Storage = Empty | Saved(saved: seq<CartItem>) | Corrupt

  /** `loadCartFromStorage()`: either nothing, or exactly the lines that were saved. */
  function Loaded(s: Storage): (items: seq<CartItem>)
    ensures items == [] || s == Saved(items)
  {
    if s.Saved? then s.saved else []
  }

  const SuccessKey := "success"

  const SessionKey := "session_id"

  /** `success=true` or a non-empty `session_id`: the browser is back from a checkout. */
  predicate ReturnSignal(q: Query)
    ensures ReturnSignal(q) ==> HasKey(q, SuccessKey) || HasKey(q, SessionKey)
  {
    Get(q, SuccessKey) == Some("true") || Truthy(Get(q, SessionKey))
  }

  /** The success URL the checkout sends the shopper back to is recognised as a return. */
  lemma SuccessUrlSignals(here: Url)
    ensures ReturnSignal(SuccessUrl(here).query)
  {
  }

  /** The URL the hook replaces the current one with after a checkout: both markers
      removed, the fragment dropped. */
  function Cleaned(u: Url): (c: Url)
    ensures c.path == u.path && c.hash == ""
    ensures !ReturnSignal(c.query)
  {
    var q := Delete(Delete(u.query, SuccessKey), SessionKey);
    GetDeletedOther(Delete(u.query, SuccessKey), SessionKey, SuccessKey);
    Url(u.path, q, "")
  }

  /** Every other parameter survives the clean-up. */
  lemma CleanedKeepsOthers(u: Url, k: string)
    requires k != SuccessKey && k != SessionKey
    ensures Get(Cleaned(u).query, k) == Get(u.query, k)
  {
    GetDeletedOther(u.query, SuccessKey, k);
    GetDeletedOther(Delete(u.query, SuccessKey), SessionKey, k);
  }

  class CartStore {
    var items: seq<CartItem>
    var isOpen: bool
    var storage: Storage
    var location: Url

    /** The first render: an empty, closed cart. */
    constructor(storage0: Storage, location0: Url)
      ensures items == [] && !isOpen && storage == storage0 && location == location0
    {
      items := [];
      isOpen := false;
      storage := storage0;
      location := location0;
    }

    /** The loading effect: after a checkout it empties the cart and its stored copy and
        cleans the URL; otherwise it loads a non-empty stored cart. */
    method Mount()
      modifies this
      ensures ReturnSignal(old(location.query)) ==>
        items == [] && storage == Empty && location == Cleaned(old(location))
      ensures !ReturnSignal(old(location.query)) ==>
        storage == old(storage) && location == old(location)
        && items == (if |Loaded(old(storage))| > 0 then Loaded(old(storage)) else old(items))
      ensures !ReturnSignal(location.query) && isOpen == old(isOpen)
    {
      if ReturnSignal(location.query) {
        storage := Empty;
        items := [];
        location := Cleaned(location);
      } else {
        var loaded := Loaded(storage);
        if |loaded| > 0 {
          items := loaded;
        }
      }
    }

    /** The saving effect of a render that showed `rendered` at `renderedQuery`: outside a
        checkout return the stored copy becomes those lines, or goes when there are none. */
    method Persist(rendered: seq<CartItem>, renderedQuery: Query)
      modifies this
      ensures ReturnSignal(renderedQuery) ==> storage == old(storage)
      ensures !ReturnSignal(renderedQuery) ==> storage == (if rendered == [] then Empty else Saved(rendered))
      ensures !ReturnSignal(renderedQuery) ==> Loaded(storage) == rendered
      ensures items == old(items) && isOpen == old(isOpen) && location == old(location)
    {
      if ReturnSignal(renderedQuery) {
        return;
      }
      if |rendered| > 0 {
        storage := Saved(rendered);
      } else {
        storage := Empty;
      }
    }

    /** The first two renders of a page: the effects of the first (with the initial empty
        cart), then the saving effect of the render the loaded lines cause. A saved cart
        comes back and stays saved; a checkout return leaves nothing. */
    method FirstRenders()
      requires items == []
      modifies this
      ensures !ReturnSignal(old(location.query)) && old(storage).Saved? && old(storage).saved != [] ==>
        items == old(storage).saved && storage == old(storage)
      ensures !ReturnSignal(old(location.query)) && !(old(storage).Saved? && old(storage).saved != []) ==>
        items == [] && storage == Empty
      ensures ReturnSignal(old(location.query)) ==> items == [] && storage == Empty && location == Cleaned(old(location))
    {
      var first := location.query;
      Mount();
      Persist([], first);
      Persist(items, location.query);
    }

    /** `addItem`; it also opens the drawer. */
    method AddItem(item: CartItem)
      modifies this
      ensures items == Added(old(items), item) && isOpen
      ensures storage == old(storage) && location == old(location)
    {
      items := Added(items, item);
      isOpen := true;
    }

    /** `updateQuantity` */
    method UpdateQuantity(id: string, quantity: int)
      modifies this
      ensures items == WithQuantity(old(items), id, quantity)
      ensures isOpen == old(isOpen) && storage == old(storage) && location == old(location)
    {
      items := WithQuantity(items, id, quantity);
    }

    /** `removeItem` */
    method RemoveItem(id: string)
      modifies this
      ensures items == Removed(old(items), id)
      ensures isOpen == old(isOpen) && storage == old(storage) && location == old(location)
    {
      items := Removed(items, id);
    }

    /** `clearCart`: empties the cart and its stored copy. */
    method ClearCart()
      modifies this
      ensures items == [] && storage == Empty
      ensures isOpen == old(isOpen) && location == old(location)
    {
      items := [];
      storage := Empty;
    }

    /** `setIsOpen` */
    method SetIsOpen(open: bool)
      modifies this
      ensures isOpen == open
      ensures items == old(items) && storage == old(storage) && location == old(location)
    {
      isOpen := open;
    }

    /** `getCheckoutItems()`: one checkout item per line, in order. */
    method CheckoutItems() returns (r: seq<CheckoutItem>)
      ensures |r| == |items|
      ensures forall i :: 0 <= i < |items| ==> r[i] == CheckoutItemOf(items[i])
    {
      r := [];
      for i := 0 to |items|
        invariant |r| == i
        invariant forall j :: 0 <= j < i ==> r[j] == CheckoutItemOf(items[j])
      {
        var c := CheckoutItemFor(items[i]);
        CheckoutItemsStep(items, r, c);
        r := r + [c];
      }
    }
  }
}
