/** The product-detail hook: the gallery images, the sale and inventory details read from the
    product's metadata, the variant selectors with their fallback chain, the quantity selector
    and the cart line the page adds. The fetched product is an input (`None` while there is
    none); `JSON.parse` of the variant options and `String` of a number are parameters. The
    selections object is kept as its list of entries in key order. */
module Detail {
  import opened Wrappers
  import opened Text
  import opened Numbers
  import opened ProductApi
  import Urls
  import Cart
  import Seqs

  type Selections = seq<(string, string)>

  // ---------------------------------------------------------------------------------------
  // Images

  datatype Image = Image(src: string, alt: string)

  predicate HasGallery(p: Product) {
    p.images.Some? && |p.images.value| > 0
  }

  /** The alt text of the `i`-th gallery image when the product has no alt text of its own. */
  function GalleryAlt(name: string, i: nat): string {
    name + " - Image " + NatToString(i + 1)
  }

  /** `images`: one image per gallery entry, in order, or else the main image alone. */
  function Images(product: Option<Product>): (images: seq<Image>)
    ensures product.None? ==> images == []
    ensures product.Some? && HasGallery(product.value) ==>
      var p := product.value;
      |images| == |p.images.value|
      && forall i :: 0 <= i < |images| ==> images[i] == Image(p.images.value[i], Or(p.imageAlt, GalleryAlt(p.name, i)))
    ensures product.Some? && !HasGallery(product.value) ==>
      images == [Image(product.value.imageSrc, Or(product.value.imageAlt, product.value.name))]
  {
    match product
    case None => []
    case Some(p) =>
      if HasGallery(p) then
        var srcs := p.images.value;
        seq(|srcs|, i requires 0 <= i < |srcs| => Image(srcs[i], Or(p.imageAlt, GalleryAlt(p.name, i))))
      else [Image(p.imageSrc, Or(p.imageAlt, p.name))]
  }

  /** A product always shows at least one image, and without alt text of its own no two
      gallery images share an alt text. */
  lemma ImagesShown(p: Product)
    ensures |Images(Some(p))| >= 1
    ensures !Truthy(p.imageAlt) ==> forall i, j :: 0 <= i < j < |Images(Some(p))| ==>
      Images(Some(p))[i].alt != Images(Some(p))[j].alt
  {
    var images := Images(Some(p));
    if !Truthy(p.imageAlt) && HasGallery(p) {
      forall i, j | 0 <= i < j < |images| ensures images[i].alt != images[j].alt {
        GalleryAltsDiffer(p.name, i, j);
      }
    }
  }

  lemma GalleryAltsDiffer(name: string, i: nat, j: nat)
    requires i != j
    ensures GalleryAlt(name, i) != GalleryAlt(name, j)
  {
    var prefix := name + " - Image ";
    assert GalleryAlt(name, i)[|prefix|..] == NatToString(i + 1);
    assert GalleryAlt(name, j)[|prefix|..] == NatToString(j + 1);
    if NatToString(i + 1) == NatToString(j + 1) {
      IntToStringInjective(i + 1, j + 1);
    }
  }

  // ---------------------------------------------------------------------------------------
  // Sale price and inventory

  datatype ProductMeta = ProductMeta(
    salePrice: Option<string>,
    ribbon: Option<string>,
    inventoryStatus: Option<string>,
    inventoryQuantity: Option<Num>,
    sku: Option<string>)

  /** `String(v)` of a metadata value. */
  function TextOf(v: MetaValue, show: real -> string): string {
    match v
    case MStr(s) => s
    case MNum(x) => show(x)
  }

  /** JavaScript truthiness of a metadata value. */
  predicate MetaTruthy(v: MetaValue) {
    match v
    case MStr(s) => s != ""
    case MNum(x) => x != 0.0
  }

  /** `metadata.onSale` marks a sale: its text is "true" or "1", or it is the number 1. */
  predicate OnSale(m: Metadata, show: real -> string) {
    "onSale" in m && (TextOf(m["onSale"], show) == "true" || m["onSale"] == MNum(1.0) || TextOf(m["onSale"], show) == "1")
  }

  /** The shown sale price: a number printed to cents after a "$"; text with a "$" put in
      front unless it has one. */
  function SaleText(v: MetaValue): (s: string)
    ensures StartsWith(s, "$")
  {
    match v
    case MNum(x) => "$" + ToFixed(Finite(x), 2)
    case MStr(t) => if StartsWith(t, "$") then t else "$" + t
  }

  /** The value of a key when it is truthy, as text. */
  function TruthyText(m: Metadata, key: string, show: real -> string): (r: Option<string>)
    ensures r.Some? <==> key in m && MetaTruthy(m[key])
    ensures r.Some? ==> r.value == TextOf(m[key], show)
  {
    if key in m && MetaTruthy(m[key]) then Some(TextOf(m[key], show)) else None
  }

  /** `inventoryQuantity`: a number as it is, text through `parseInt`. */
  function QuantityOf(v: MetaValue): Num {
    match v
    case MNum(x) => Finite(x)
    case MStr(s) => ParseInt(s)
  }

  /** `meta` */
  function Meta(product: Option<Product>, show: real -> string): (meta: ProductMeta)
    ensures (product.None? || product.value.metadata.None?) ==> meta == ProductMeta(None, None, None, None, None)
    ensures product.Some? && product.value.metadata.Some? ==>
      var m := product.value.metadata.value;
      && (meta.salePrice.Some? <==> OnSale(m, show) && "salePrice" in m)
      && (meta.salePrice.Some? ==> meta.salePrice.value == SaleText(m["salePrice"]))
      && meta.ribbon == TruthyText(m, "ribbon", show)
      && meta.inventoryStatus == TruthyText(m, "inventoryStatus", show)
      && meta.sku == TruthyText(m, "sku", show)
      && (meta.inventoryQuantity.Some? <==> "inventoryQuantity" in m)
      && (meta.inventoryQuantity.Some? ==> meta.inventoryQuantity.value == QuantityOf(m["inventoryQuantity"]))
  {
    if product.None? || product.value.metadata.None? then ProductMeta(None, None, None, None, None)
    else
      var m := product.value.metadata.value;
      ProductMeta(
        if OnSale(m, show) && "salePrice" in m then Some(SaleText(m["salePrice"])) else None,
        TruthyText(m, "ribbon", show),
        TruthyText(m, "inventoryStatus", show),
        if "inventoryQuantity" in m then Some(QuantityOf(m["inventoryQuantity"])) else None,
        TruthyText(m, "sku", show))
  }

  /** A text sale price gets exactly one "$" put in front: dropping the first "$" of what is
      shown gives the text without its own leading "$". */
  lemma SaleTextOfText(t: string)
    ensures RemoveFirst(SaleText(MStr(t)), '$') == if StartsWith(t, "$") then t[1..] else t
  {
    if StartsWith(t, "$") {
      DropLeadDollar(t);
    } else {
      DropLeadDollar("$" + t);
      assert ("$" + t)[1..] == t;
    }
  }

  lemma DropLeadDollar(t: string)
    requires t != [] && t[0] == '$'
    ensures RemoveFirst(t, '$') == t[1..]
  {
    assert '$' in t;
    assert IndexOf(t, '$') == 0;
    assert t[..0] + t[1..] == t[1..];
  }

  /** A number sale price reads back, as the shop reads prices, as the number rounded to
      cents. */
  lemma SaleTextOfNumber(x: real)
    ensures PriceValue(SaleText(MNum(x))) == Finite(RoundedTo(x, 2))
  {
    var t := ToFixed(Finite(x), 2);
    FixedTextChars(x < 0.0, ScaledDigits(x, 2), 2);
    PlainPriceValue(t);
    ToFixedParsesBack(x, 2);
  }

  /** `toFixed` prints only digits, a minus sign and a decimal point. */
  lemma FixedTextChars(neg: bool, d: string, f: nat)
    requires |d| >= f + 1 && AllDigits(d)
    ensures '$' !in FixedText(neg, d, f) && ',' !in FixedText(neg, d, f)
  {
    if f > 0 {
      assert FixedText(neg, d, f) == SignText(neg) + d[..|d| - f] + "." + d[|d| - f..];
      assert forall c :: c in d[..|d| - f] ==> c in d;
      assert forall c :: c in d[|d| - f..] ==> c in d;
    }
  }

  /** Price text without "$" or "," before it reads as `parseFloat` reads it. */
  lemma PlainPriceValue(t: string)
    requires '$' !in t && ',' !in t
    ensures PriceValue("$" + t) == ParseFloat(t)
  {
    DropLeadDollar("$" + t);
    assert ("$" + t)[1..] == t;
  }

  // ---------------------------------------------------------------------------------------
  // Variant selectors

  /** What a selector's change handler does: record the choice under a key, set the
      quantity, or nothing. */
  datatype OnChange = Selects(key: string) | SetsQuantity | Ignores

  datatype Variant = Variant(name: string, options: seq<string>, selected: string, onChange: OnChange)

  /** The `values` of a parsed option group: falsy, text, an array (each element already
      through `String`), or any other truthy value (through `String`). */
  datatype GroupValues = NoValues | TextValues(s: string) | ItemValues(items: seq<string>) | OtherValue(text: string)

  /** An element of the parsed `variantOptions` array; reading a field of `null` throws. */
  datatype RawGroup = NullGroup | Group(name: Option<string>, values: GroupValues)

  predicate ValuesTruthy(v: GroupValues) {
    match v
    case NoValues => false
    case TextValues(s) => s != ""
    case ItemValues(_) => true
    case OtherValue(_) => true
  }

  function Trims(parts: seq<string>): (r: seq<string>)
    ensures |r| == |parts|
    ensures forall i :: 0 <= i < |parts| ==> r[i] == Trim(parts[i])
  {
    seq(|parts|, i requires 0 <= i < |parts| => Trim(parts[i]))
  }

  /** The options of a group: text split at "," and trimmed, array elements trimmed, any
      other value as its one option. */
  function GroupOptions(v: GroupValues): seq<string> {
    match v
    case NoValues => []
    case TextValues(s) => Trims(Split(s, ','))
    case ItemValues(items) => Trims(items)
    case OtherValue(text) => [text]
  }

  /** The stored selection for `name` when it is truthy, else the first option. */
  function Selected(sel: Selections, name: string, options: seq<string>): (s: string)
    requires |options| > 0
    ensures Truthy(Urls.Get(sel, name)) ==> s == Urls.Get(sel, name).value
    ensures !Truthy(Urls.Get(sel, name)) ==> s == options[0]
  {
    Or(Urls.Get(sel, name), options[0])
  }

  predicate Usable(g: RawGroup) {
    g.Group? && Truthy(g.name) && ValuesTruthy(g.values) && |GroupOptions(g.values)| > 0
  }

  function GroupVariant(g: RawGroup, sel: Selections): Variant
    requires Usable(g)
  {
    var options := GroupOptions(g.values);
    Variant(g.name.value, options, Selected(sel, g.name.value, options), Selects(g.name.value))
  }

  /** The `forEach` over the parsed groups: one selector per usable group, in order, until a
      `null` element throws. */
  function GroupVariants(groups: seq<RawGroup>, sel: Selections): (vs: seq<Variant>)
    ensures |vs| <= |groups|
  {
    if groups == [] || groups[0].NullGroup? then []
    else if Usable(groups[0]) then [GroupVariant(groups[0], sel)] + GroupVariants(groups[1..], sel)
    else GroupVariants(groups[1..], sel)
  }

  /** The groups before the first `null` element. */
  function BeforeNull(groups: seq<RawGroup>): (r: seq<RawGroup>)
    ensures |r| <= |groups| && r == groups[..|r|]
    ensures forall i :: 0 <= i < |r| ==> r[i].Group?
    ensures |r| < |groups| ==> groups[|r|].NullGroup?
  {
    if groups == [] || groups[0].NullGroup? then []
    else [groups[0]] + BeforeNull(groups[1..])
  }

  /** The selectors are exactly those of the usable groups before the first `null`, and
      every one of them records its choice under its own name. */
  lemma {:induction false} GroupVariantsFrom(groups: seq<RawGroup>, sel: Selections)
    ensures forall v :: v in GroupVariants(groups, sel) <==>
      exists i :: 0 <= i < |BeforeNull(groups)| && Usable(groups[i]) && v == GroupVariant(groups[i], sel)
    ensures var us := Seqs.Filter(BeforeNull(groups), Usable);
      |GroupVariants(groups, sel)| == |us|
      && forall i :: 0 <= i < |us| ==> GroupVariants(groups, sel)[i] == GroupVariant(us[i], sel)
  {
    GroupVariantsInOrder(groups, sel);
    GroupVariantsMembers(groups, sel);
  }

  lemma {:induction false} GroupVariantsMembers(groups: seq<RawGroup>, sel: Selections)
    ensures forall v :: v in GroupVariants(groups, sel) <==>
      exists i :: 0 <= i < |BeforeNull(groups)| && Usable(groups[i]) && v == GroupVariant(groups[i], sel)
  {
    if groups != [] && groups[0].Group? {
      GroupVariantsMembers(groups[1..], sel);
      var tail := BeforeNull(groups[1..]);
      assert BeforeNull(groups) == [groups[0]] + tail;
      forall v ensures v in GroupVariants(groups, sel) <==>
        exists i :: 0 <= i < |BeforeNull(groups)| && Usable(groups[i]) && v == GroupVariant(groups[i], sel)
      {
        if v in GroupVariants(groups, sel) && !(Usable(groups[0]) && v == GroupVariant(groups[0], sel)) {
          var i :| 0 <= i < |tail| && Usable(groups[1..][i]) && v == GroupVariant(groups[1..][i], sel);
          assert groups[i + 1] == groups[1..][i];
        }
        if exists i :: 0 <= i < |BeforeNull(groups)| && Usable(groups[i]) && v == GroupVariant(groups[i], sel) {
          var i :| 0 <= i < |BeforeNull(groups)| && Usable(groups[i]) && v == GroupVariant(groups[i], sel);
          if i > 0 {
            assert groups[1..][i - 1] == groups[i];
          }
        }
      }
    }
  }

  /** In order: the `i`-th selector is that of the `i`-th usable group before the first
      `null`, one selector per such group. */
  lemma {:induction false} GroupVariantsInOrder(groups: seq<RawGroup>, sel: Selections)
    ensures var us := Seqs.Filter(BeforeNull(groups), Usable);
      |GroupVariants(groups, sel)| == |us|
      && forall i :: 0 <= i < |us| ==> GroupVariants(groups, sel)[i] == GroupVariant(us[i], sel)
  {
    if groups != [] && groups[0].Group? {
      GroupVariantsInOrder(groups[1..], sel);
      var b := BeforeNull(groups);
      assert b == [groups[0]] + BeforeNull(groups[1..]);
      assert b[1..] == BeforeNull(groups[1..]);
      var rest := Seqs.Filter(BeforeNull(groups[1..]), Usable);
      if Usable(groups[0]) {
        assert Seqs.Filter(b, Usable) == [groups[0]] + rest;
      } else {
        assert Seqs.Filter(b, Usable) == rest;
      }
    }
  }

  /** The accumulating loop over the parsed groups; a `null` element ends it with what it
      has pushed so far. */
  method PushGroups(groups: seq<RawGroup>, sel: Selections) returns (vs: seq<Variant>)
    ensures vs == GroupVariants(groups, sel)
  {
    vs := [];
    var i := 0;
    while i < |groups|
      invariant 0 <= i <= |groups|
      invariant GroupVariants(groups, sel) == vs + GroupVariants(groups[i..], sel)
    {
      var g := groups[i];
      assert groups[i..][0] == g && groups[i..][1..] == groups[i + 1..];
      if g.NullGroup? {
        return;
      }
      if Usable(g) {
        vs := vs + [GroupVariant(g, sel)];
      }
      i := i + 1;
    }
  }

  /** The parsed `variantOptions`, when the metadata has a truthy value for it that parses
      to an array. */
  function ParsedGroups(p: Product, parseOptions: string -> Option<seq<RawGroup>>, show: real -> string)
    : Option<seq<RawGroup>>
  {
    if p.metadata.Some? && "variantOptions" in p.metadata.value && MetaTruthy(p.metadata.value["variantOptions"]) then
      parseOptions(TextOf(p.metadata.value["variantOptions"], show))
    else None
  }

  const BrandName := "Brand"
  const VariantName := "Variant"

  /** The options of the "Variant" selector: the variant split at "/" and trimmed, or the
      variant as it is. */
  function VariantOptions(variant: string): (options: seq<string>)
    ensures |options| >= 1
  {
    if '/' in variant then Trims(Split(variant, '/')) else [variant]
  }

  /** The selectors from the groups, else a fixed brand selector, else one built from the
      variant text, else none. */
  function VariantsFrom(p: Product, groups: seq<Variant>, sel: Selections): (vs: seq<Variant>)
    ensures |groups| > 0 ==> vs == groups
    ensures |groups| == 0 && Truthy(p.brand) ==> vs == [Variant(BrandName, [p.brand.value], p.brand.value, Ignores)]
    ensures |groups| == 0 && !Truthy(p.brand) && Truthy(p.variant) ==>
      vs == [Variant(VariantName, VariantOptions(p.variant.value),
                     Selected(sel, VariantName, VariantOptions(p.variant.value)), Selects(VariantName))]
    ensures vs == [] <==> |groups| == 0 && !Truthy(p.brand) && !Truthy(p.variant)
  {
    if |groups| > 0 then groups
    else if Truthy(p.brand) then [Variant(BrandName, [p.brand.value], p.brand.value, Ignores)]
    else if Truthy(p.variant) then
      var options := VariantOptions(p.variant.value);
      [Variant(VariantName, options, Selected(sel, VariantName, options), Selects(VariantName))]
    else []
  }

  /** `variants`: none without a product; every selector it lists is well formed. */
  function Variants(product: Option<Product>, parseOptions: string -> Option<seq<RawGroup>>,
                    show: real -> string, sel: Selections): (vs: seq<Variant>)
    ensures product.None? ==> vs == []
    ensures forall v | v in vs :: WellFormed(v, sel)
  {
    match product
    case None => []
    case Some(p) =>
      var groups := ParsedGroups(p, parseOptions, show).GetOr([]);
      GroupVariantsMembers(groups, sel);
      VariantsFrom(p, GroupVariants(groups, sel), sel)
  }

  /** The memo that builds `variants`, with its loop over the parsed groups. */
  method VariantList(product: Option<Product>, parseOptions: string -> Option<seq<RawGroup>>,
                     show: real -> string, sel: Selections) returns (vs: seq<Variant>)
    ensures vs == Variants(product, parseOptions, show, sel)
  {
    if product.None? {
      return [];
    }
    var p := product.value;
    var groups := [];
    var parsed := ParsedGroups(p, parseOptions, show);
    if parsed.Some? {
      groups := PushGroups(parsed.value, sel);
    }
    vs := VariantsFrom(p, groups, sel);
  }

  /** A selector well formed: it has options, and it shows the stored choice for its key (or
      its first option); the brand selector alone ignores changes and shows its one option. */
  predicate WellFormed(v: Variant, sel: Selections) {
    && |v.options| > 0
    && (v.onChange.Selects? ==> v.onChange.key == v.name && v.selected == Selected(sel, v.name, v.options))
    && (v.onChange.Ignores? ==> v.name == BrandName && v.options == [v.selected])
  }

  /** Every selector the page shows is well formed. */
  lemma VariantsWellFormed(product: Option<Product>, parseOptions: string -> Option<seq<RawGroup>>,
                           show: real -> string, sel: Selections)
    ensures forall v :: v in Variants(product, parseOptions, show, sel) ==> WellFormed(v, sel)
  {
    if product.Some? {
      var groups := ParsedGroups(product.value, parseOptions, show).GetOr([]);
      GroupVariantsMembers(groups, sel);
    }
  }

  /** Choosing `value` in a selector that records its choice makes it show `value` (when
      `value` is not empty) and leaves every other selector's choice as it was. */
  lemma ChoiceShows(sel: Selections, key: string, value: string, options: seq<string>, other: string)
    requires |options| > 0 && value != "" && other != key
    ensures Selected(Urls.Set(sel, key, value), key, options) == value
    ensures Urls.Get(Urls.Set(sel, key, value), other) == Urls.Get(sel, other)
  {
    Urls.GetSet(sel, key, value);
    Urls.GetSetOther(sel, key, value, other);
  }

  // ---------------------------------------------------------------------------------------
  // Quantity selector

  const QuantityName := "Quantity"

  /** "1" up to "10". */
  function QuantityOptions(): (options: seq<string>)
    ensures |options| == 10
    ensures forall i :: 0 <= i < 10 ==> options[i] == NatToString(i + 1)
  {
    seq(10, i requires 0 <= i < 10 => NatToString(i + 1))
  }

  /** `quantityVariant`; its change handler sets the quantity to `parseInt` of the choice. */
  function QuantityVariant(quantity: int): (v: Variant)
    ensures v.name == QuantityName && v.onChange == SetsQuantity && |v.options| == 10
    ensures v.options == QuantityOptions() && v.selected == IntToString(quantity)
    ensures forall i :: 0 <= i < 10 ==> ParseInt(v.options[i]) == Finite((i + 1) as real)
    ensures ParseInt(v.selected) == Finite(quantity as real)
  {
    forall i | 0 <= i < 10 ensures ParseInt(QuantityOptions()[i]) == Finite((i + 1) as real) {
      ParseIntOfIntToString(i + 1);
    }
    ParseIntOfIntToString(quantity);
    Variant(QuantityName, QuantityOptions(), IntToString(quantity), SetsQuantity)
  }

  /** The selected quantity is one of the options exactly when it is between 1 and 10. */
  lemma QuantityShown(quantity: int)
    ensures IntToString(quantity) in QuantityOptions() <==> 1 <= quantity <= 10
  {
    if 1 <= quantity <= 10 {
      assert QuantityOptions()[quantity - 1] == IntToString(quantity);
    }
    if IntToString(quantity) in QuantityOptions() {
      var k := QuantityOption(IntToString(quantity));
      IntToStringInjective(k, quantity);
    }
  }

  /** The quantity options are all different. */
  lemma QuantityOptionsDistinct(i: nat, j: nat)
    requires i < j < 10
    ensures QuantityOptions()[i] != QuantityOptions()[j]
  {
    if QuantityOptions()[i] == QuantityOptions()[j] {
      IntToStringInjective(i + 1, j + 1);
    }
  }

  /** Each option names the quantity it reads as. */
  lemma QuantityOption(value: string) returns (k: int)
    requires value in QuantityOptions()
    ensures 1 <= k <= 10 && value == IntToString(k) && ParseInt(value) == Finite(k as real)
  {
    var i :| 0 <= i < 10 && QuantityOptions()[i] == value;
    k := i + 1;
    ParseIntOfIntToString(k);
  }

  // ---------------------------------------------------------------------------------------
  // The cart line

  function VariantText(entry: (string, string)): string {
    entry.0 + ": " + entry.1
  }

  /** `Object.entries(selectedVariants)` as "label: value" texts. */
  function VariantTexts(sel: Selections): (texts: seq<string>)
    ensures |texts| == |sel|
    ensures forall i :: 0 <= i < |sel| ==> texts[i] == VariantText(sel[i])
  {
    seq(|sel|, i requires 0 <= i < |sel| => VariantText(sel[i]))
  }

  function Values(sel: Selections): (vs: seq<string>)
    ensures |vs| == |sel|
    ensures forall i :: 0 <= i < |sel| ==> vs[i] == sel[i].1
  {
    seq(|sel|, i requires 0 <= i < |sel| => sel[i].1)
  }

  /** The selected values joined by "-", or "default" when that is empty. */
  function VariantId(sel: Selections): (id: string)
    ensures id != ""
    ensures sel == [] ==> id == "default"
    ensures Join(Values(sel), "-") != "" ==> id == Join(Values(sel), "-")
    ensures Join(Values(sel), "-") == "" ==> id == "default"
  {
    var joined := Join(Values(sel), "-");
    if joined == "" then "default" else joined
  }

  /** `${product.id}-${variantId}-${quantity}`: the quantity reads back after the product id,
      the variant id and their two dashes. */
  function LineId(productId: string, sel: Selections, quantity: int): (id: string)
    ensures |id| == |productId| + |VariantId(sel)| + 2 + |IntToString(quantity)|
    ensures id[..|productId| + 1] == productId + "-"
    ensures id[|productId| + |VariantId(sel)| + 2..] == IntToString(quantity)
  {
    QuantityAfter(productId + "-" + VariantId(sel), IntToString(quantity));
    productId + "-" + VariantId(sel) + ("-" + IntToString(quantity))
  }

  /** The variant texts of the line: one per selection, or the product's variant text. */
  function LineVariants(p: Product, sel: Selections): (texts: seq<string>)
    ensures |sel| > 0 ==> texts == VariantTexts(sel)
    ensures |sel| == 0 && Truthy(p.variant) ==> texts == [VariantName + ": " + p.variant.value]
    ensures |sel| == 0 && !Truthy(p.variant) ==> texts == []
  {
    var texts := VariantTexts(sel);
    if |texts| == 0 && Truthy(p.variant) then [VariantName + ": " + p.variant.value] else texts
  }

  /** `createCartItem()` */
  function CreateCartItem(product: Option<Product>, sel: Selections, quantity: int): (item: Option<Cart.CartItem>)
    ensures item.None? <==> product.None?
    ensures item.Some? ==>
      var p, line := product.value, item.value;
      && line.productId == p.id && line.name == p.name && line.price == p.price
      && line.quantity == quantity && line.imageSrc == p.imageSrc
      && line.imageAlt == Some(Or(p.imageAlt, p.name))
      && line.variants == Some(LineVariants(p, sel))
      && StartsWith(line.id, p.id + "-") && EndsWith(line.id, "-" + IntToString(quantity))
      && line.id == p.id + "-" + VariantId(sel) + "-" + IntToString(quantity)
  {
    match product
    case None => None
    case Some(p) =>
      var id := LineId(p.id, sel, quantity);
      LineIdAffixes(p.id, sel, quantity);
      Some(Cart.CartItem(id, p.id, p.name, Some(LineVariants(p, sel)), p.price, quantity, p.imageSrc,
                         Some(Or(p.imageAlt, p.name))))
  }

  lemma LineIdAffixes(productId: string, sel: Selections, quantity: int)
    ensures StartsWith(LineId(productId, sel, quantity), productId + "-")
    ensures EndsWith(LineId(productId, sel, quantity), "-" + IntToString(quantity))
  {
    Affixes(productId + "-", VariantId(sel), "-" + IntToString(quantity));
  }

  lemma Affixes(a: string, b: string, c: string)
    ensures StartsWith(a + b + c, a) && EndsWith(a + b + c, c)
  {
    assert (a + b + c)[..|a|] == a;
    assert (a + b + c)[|a + b|..] == c;
  }

  /** The same product and selections at two different quantities make two different lines:
      the cart adds them separately instead of adding up their quantities. */
  lemma QuantitiesMakeDifferentLines(productId: string, sel: Selections, a: int, b: int)
    requires a != b
    ensures LineId(productId, sel, a) != LineId(productId, sel, b)
  {
    var m := productId + "-" + VariantId(sel);
    QuantityAfter(m, IntToString(a));
    QuantityAfter(m, IntToString(b));
    if IntToString(a) == IntToString(b) {
      IntToStringInjective(a, b);
    }
  }

  lemma QuantityAfter(m: string, q: string)
    ensures (m + ("-" + q))[|m| + 1..] == q
  {
    var x := m + ("-" + q);
    forall k | 0 <= k < |q| ensures x[|m| + 1 + k] == q[k] {
      assert x[|m| + 1 + k] == ("-" + q)[1 + k];
    }
  }

  /** Labels and values that a checkout can read back: trimmed and without ":". */
  predicate Readable(sel: Selections) {
    forall i :: 0 <= i < |sel| ==> Trimmed(sel[i].0) && Trimmed(sel[i].1) && ':' !in sel[i].0 && ':' !in sel[i].1
  }

  /** No two labels are the same once lower-cased. */
  predicate DistinctLabels(sel: Selections) {
    forall i, j :: 0 <= i < j < |sel| ==> ToLower(sel[i].0) != ToLower(sel[j].0)
  }

  /** The metadata entries the selections are meant to give. */
  function LabelledEntries(sel: Selections): (es: seq<Option<(string, string)>>)
    ensures |es| == |sel|
    ensures forall i :: 0 <= i < |sel| ==> es[i] == Some((ToLower(sel[i].0), sel[i].1))
  {
    seq(|sel|, i requires 0 <= i < |sel| => Some((ToLower(sel[i].0), sel[i].1)))
  }

  /** The cart reads each "label: value" text back as its lower-cased label and its value. */
  lemma TextsReadBack(sel: Selections)
    requires Readable(sel)
    ensures Cart.Entries(VariantTexts(sel)) == LabelledEntries(sel)
  {
    var texts := VariantTexts(sel);
    forall i | 0 <= i < |sel| ensures Cart.Entry(texts[i]) == Some((ToLower(sel[i].0), sel[i].1)) {
      Cart.EntryOfLabelled(sel[i].0, sel[i].1);
    }
  }

  /** The selections reach the checkout: the metadata the cart builds from the line's variant
      texts holds every selection under its lower-cased label, and nothing else. */
  lemma SelectionsReachCheckout(sel: Selections, k: string)
    requires Readable(sel) && DistinctLabels(sel)
    ensures var m := Cart.MetadataOf(VariantTexts(sel));
      && (k in m <==> exists i :: 0 <= i < |sel| && ToLower(sel[i].0) == k)
      && forall i :: 0 <= i < |sel| && ToLower(sel[i].0) == k ==> k in m && m[k] == sel[i].1
  {
    var es := LabelledEntries(sel);
    TextsReadBack(sel);
    assert Cart.MetadataOf(VariantTexts(sel)) == Cart.Collect(es);
    CollectedLabels(sel, es, k);
  }

  lemma CollectedLabels(sel: Selections, es: seq<Option<(string, string)>>, k: string)
    requires DistinctLabels(sel) && es == LabelledEntries(sel)
    ensures var m := Cart.Collect(es);
      && (k in m <==> exists i :: 0 <= i < |sel| && ToLower(sel[i].0) == k)
      && forall i :: 0 <= i < |sel| && ToLower(sel[i].0) == k ==> k in m && m[k] == sel[i].1
  {
    var m := Cart.Collect(es);
    Cart.CollectKeys(es, k);
    if k in m {
      var i :| 0 <= i < |es| && es[i] == Some((k, m[k]));
      forall j | 0 <= j < |sel| && ToLower(sel[j].0) == k ensures m[k] == sel[j].1 {
        assert j == i;
      }
    }
    forall j | 0 <= j < |sel| && ToLower(sel[j].0) == k ensures k in m {
      assert es[j].Some? && es[j].value.0 == k;
    }
  }

  // ---------------------------------------------------------------------------------------
  // The hook's own state

  class DetailState {
    var selectedQuantity: int
    var selectedVariants: Selections

    constructor()
      ensures selectedQuantity == 1 && selectedVariants == []
    {
      selectedQuantity := 1;
      selectedVariants := [];
    }

    /** A selector's `onChange(value)`; the quantity selector offers only its options. */
    method Choose(v: Variant, value: string)
      requires v.onChange.SetsQuantity? ==> value in QuantityOptions()
      modifies this
      ensures v.onChange.Selects? ==> selectedVariants == Urls.Set(old(selectedVariants), v.onChange.key, value)
      ensures v.onChange.SetsQuantity? ==> IntToString(selectedQuantity) == value && 1 <= selectedQuantity <= 10
      ensures !v.onChange.Selects? ==> selectedVariants == old(selectedVariants)
      ensures !v.onChange.SetsQuantity? ==> selectedQuantity == old(selectedQuantity)
    {
      match v.onChange {
        case Selects(key) => selectedVariants := Urls.Set(selectedVariants, key, value);
        case SetsQuantity => ChooseQuantity(value);
        case Ignores =>
      }
    }

    /** The quantity selector's `onChange(value)`: `parseInt` of the option. */
    method ChooseQuantity(value: string)
      requires value in QuantityOptions()
      modifies this
      ensures IntToString(selectedQuantity) == value && 1 <= selectedQuantity <= 10
      ensures selectedVariants == old(selectedVariants)
    {
      ghost var k := QuantityOption(value);
      selectedQuantity := ParseInt(value).value.Floor;
    }

    function QuantitySelector(): Variant
      reads this
    {
      QuantityVariant(selectedQuantity)
    }
  }
}
