/** Product records as the product API helpers build them from untyped API records: the
    list endpoint (`fetchProducts`) and the single-product endpoint (`fetchProduct`). Random
    fallback ids, the currency formatter and number printing are parameters. */
module ProductApi {
  import opened Wrappers
  import opened Text
  import opened Numbers
  import opened Api

  /** A metadata value after normalisation: kept as text, or the number it parses to. */
  datatype MetaValue = MStr(s: string) | MNum(x: real)

  type Metadata = map<string, MetaValue>

  /** The shop's product type; the optional fields are absent in hand-written products. */
  datatype Product = Product(
    id: string,
    name: string,
    price: string,
    imageSrc: string,
    imageAlt: Option<string>,
    images: Option<seq<string>>,
    brand: Option<string>,
    variant: Option<string>,
    rating: Option<Num>,
    reviewCount: Option<string>,
    description: Option<string>,
    priceId: Option<string>,
    metadata: Option<Metadata>)

  /** A metadata value in an API record; `RNull` is `null` or `undefined`. */
  datatype RawValue = RNull | RStr(s: string) | RNum(x: real)

  /** The expanded Stripe price of an API record. */
  datatype DefaultPrice = DefaultPrice(id: Option<string>, unitAmount: Option<int>, currency: Option<string>)

  /** An untyped API product record. `metadata` is `None` when it is missing or not an object;
      otherwise it holds the object's entries in key order. */
  datatype RawProduct = RawProduct(
    id: Option<string>,
    name: Option<string>,
    description: Option<string>,
    price: Option<string>,
    priceId: Option<string>,
    imageSrc: Option<string>,
    imageAlt: Option<string>,
    images: Option<seq<string>>,
    defaultPrice: Option<DefaultPrice>,
    metadata: Option<seq<(string, RawValue)>>,
    brand: Option<string>,
    variant: Option<string>)

  /** A record with none of the fields (what an array reads as). */
  const NoFields := RawProduct(None, None, None, None, None, None, None, None, None, None, None, None)

  const Placeholder := "/placeholders/placeholder3.avif"

  const DefaultName := "Untitled Product"

  // ---------------------------------------------------------------------------------------
  // Metadata normalisation

  /** The normalised form of one metadata value: `null`/`undefined` are dropped (and `""` too
      when `dropEmpty`); text that `parseFloat` reads becomes that number; other text stays.
      A number stays the same number, `parseFloat(String(n))` being `n`. */
  function NormalisedValue(v: RawValue, dropEmpty: bool): (r: Option<MetaValue>)
    ensures r.None? <==> v.RNull? || (dropEmpty && v == RStr(""))
    ensures r.Some? && r.value.MStr? ==> v == RStr(r.value.s) && ParseFloat(r.value.s).NaN?
    ensures r.Some? && r.value.MNum? ==> v == RNum(r.value.x) || (v.RStr? && ParseFloat(v.s) == Finite(r.value.x))
  {
    match v
    case RNull => None
    case RNum(x) => Some(MNum(x))
    case RStr(s) =>
      if dropEmpty && s == "" then None
      else
        match ParseFloat(s)
        case Finite(x) => Some(MNum(x))
        case _ => Some(MStr(s))
  }

  /** The object `m` after `m[k] = v` for a surviving `v`. */
  function Put(m: Metadata, k: string, v: Option<MetaValue>): Metadata {
    if v.Some? then m[k := v.value] else m
  }

  /** The object built entry by entry from the values `f` keeps (a later key overwrites). */
  function Assigned(entries: seq<(string, RawValue)>, f: RawValue -> Option<MetaValue>): Metadata {
    if entries == [] then map[]
    else
      var (k, v) := entries[|entries| - 1];
      Put(Assigned(entries[..|entries| - 1], f), k, f(v))
  }

  /** The metadata object the record mapping builds. */
  function Normalised(entries: seq<(string, RawValue)>, dropEmpty: bool): Metadata {
    Assigned(entries, v => NormalisedValue(v, dropEmpty))
  }

  /** The loop that fills the metadata object, one key at a time. */
  method NormaliseMetadata(entries: seq<(string, RawValue)>, dropEmpty: bool) returns (m: Metadata)
    ensures m == Normalised(entries, dropEmpty)
  {
    m := map[];
    var i := 0;
    while i < |entries|
      invariant 0 <= i <= |entries|
      invariant m == Normalised(entries[..i], dropEmpty)
    {
      var (k, v) := entries[i];
      assert entries[..i + 1][..i] == entries[..i];
      var value := NormalisedValue(v, dropEmpty);
      m := Put(m, k, value);
      i := i + 1;
    }
    assert entries[..i] == entries;
  }

  lemma {:induction false} AssignedKeys(entries: seq<(string, RawValue)>, f: RawValue -> Option<MetaValue>, k: string)
    ensures k in Assigned(entries, f)
        <==> exists i :: 0 <= i < |entries| && entries[i].0 == k && f(entries[i].1).Some?
  {
    if entries != [] {
      var init := entries[..|entries| - 1];
      AssignedKeys(init, f, k);
      if k in Assigned(init, f) {
        var i :| 0 <= i < |init| && init[i].0 == k && f(init[i].1).Some?;
        assert entries[i] == init[i];
      }
      if exists i :: 0 <= i < |entries| && entries[i].0 == k && f(entries[i].1).Some? {
        var i :| 0 <= i < |entries| && entries[i].0 == k && f(entries[i].1).Some?;
        if i < |init| {
          assert init[i] == entries[i];
        }
      }
    }
  }

  /** A key is kept exactly when some entry with that key has a value that survives. */
  lemma NormalisedKeys(entries: seq<(string, RawValue)>, dropEmpty: bool, k: string)
    ensures k in Normalised(entries, dropEmpty)
        <==> exists i :: 0 <= i < |entries| && entries[i].0 == k && NormalisedValue(entries[i].1, dropEmpty).Some?
  {
    AssignedKeys(entries, v => NormalisedValue(v, dropEmpty), k);
  }

  lemma {:induction false} AssignedAt(entries: seq<(string, RawValue)>, f: RawValue -> Option<MetaValue>, i: nat)
    requires i < |entries|
    requires forall j :: i < j < |entries| ==> entries[j].0 != entries[i].0
    requires f(entries[i].1).Some?
    ensures entries[i].0 in Assigned(entries, f)
    ensures Assigned(entries, f)[entries[i].0] == f(entries[i].1).value
    decreases |entries|
  {
    var init := entries[..|entries| - 1];
    if i < |init| {
      assert init[i] == entries[i];
      assert forall j :: i < j < |init| ==> init[j] == entries[j];
      AssignedAt(init, f, i);
    }
  }

  /** An entry whose key comes back in no later entry is in the object with its normalised
      value, when that value survives. */
  lemma NormalisedValueAt(entries: seq<(string, RawValue)>, dropEmpty: bool, i: nat)
    requires i < |entries|
    requires forall j :: i < j < |entries| ==> entries[j].0 != entries[i].0
    requires NormalisedValue(entries[i].1, dropEmpty).Some?
    ensures entries[i].0 in Normalised(entries, dropEmpty)
    ensures Normalised(entries, dropEmpty)[entries[i].0] == NormalisedValue(entries[i].1, dropEmpty).value
  {
    AssignedAt(entries, v => NormalisedValue(v, dropEmpty), i);
  }

  lemma {:induction false} AssignedAvoids(entries: seq<(string, RawValue)>, f: RawValue -> Option<MetaValue>, k: string, bad: MetaValue)
    requires forall v :: f(v) != Some(bad)
    requires k in Assigned(entries, f)
    ensures Assigned(entries, f)[k] != bad
  {
    if entries != [] {
      var (key, v) := entries[|entries| - 1];
      if key != k || f(v).None? {
        AssignedAvoids(entries[..|entries| - 1], f, k, bad);
      }
    }
  }

  /** The single-product path never keeps an empty string. */
  lemma NormalisedDropsEmpty(entries: seq<(string, RawValue)>, k: string)
    requires k in Normalised(entries, true)
    ensures Normalised(entries, true)[k] != MStr("")
  {
    AssignedAvoids(entries, v => NormalisedValue(v, true), k, MStr(""));
  }

  /** The list path keeps an empty string: `parseFloat("")` is `NaN`. */
  lemma ListKeepsEmpty(entries: seq<(string, RawValue)>, k: string)
    requires |entries| > 0 && entries[|entries| - 1] == (k, RStr(""))
    ensures k in Normalised(entries, false) && Normalised(entries, false)[k] == MStr("")
  {
    EmptyStaysText();
  }

  lemma EmptyStaysText()
    ensures NormalisedValue(RStr(""), false) == Some(MStr(""))
  {
    ParseFloatEmpty();
  }

  // ---------------------------------------------------------------------------------------
  // Field fallbacks

  /** `metadata?.[key]` on the raw entries; `RNull` when there is no such key. */
  function RawLookup(metadata: Option<seq<(string, RawValue)>>, key: string): (v: RawValue)
    ensures metadata.None? ==> v.RNull?
    decreases if metadata.Some? then |metadata.value| else 0
  {
    match metadata
    case None => RNull
    case Some(entries) =>
      if entries == [] then RNull
      else if entries[|entries| - 1].0 == key then entries[|entries| - 1].1
      else RawLookup(Some(entries[..|entries| - 1]), key)
  }

  predicate RawTruthy(v: RawValue) {
    match v
    case RNull => false
    case RStr(s) => s != ""
    case RNum(x) => x != 0.0
  }

  /** `String(v)` for a present value. */
  function RawText(v: RawValue, show: real -> string): string {
    match v
    case RNull => ""
    case RStr(s) => s
    case RNum(x) => show(x)
  }

  /** `parseFloat(String(v))` for a present value. */
  function RawNumber(v: RawValue): Num {
    match v
    case RNull => NaN
    case RStr(s) => ParseFloat(s)
    case RNum(x) => Finite(x)
  }

  /** `metadata?.[key] || field || ""` */
  function MetaOrField(raw: RawProduct, key: string, field: Option<string>, show: real -> string): (r: string)
    ensures RawTruthy(RawLookup(raw.metadata, key)) ==> r == RawText(RawLookup(raw.metadata, key), show)
    ensures !RawTruthy(RawLookup(raw.metadata, key)) ==> r == Or(field, "")
  {
    var v := RawLookup(raw.metadata, key);
    if RawTruthy(v) then RawText(v, show) else Or(field, "")
  }

  /** `images?.[0] || imageSrc || placeholder`: never empty. */
  function ImageSrc(raw: RawProduct): (src: string)
    ensures src != ""
    ensures raw.images.Some? && |raw.images.value| > 0 && raw.images.value[0] != "" ==> src == raw.images.value[0]
  {
    var first := if raw.images.Some? && |raw.images.value| > 0 then Some(raw.images.value[0]) else None;
    if Truthy(first) then first.value else Or(raw.imageSrc, Placeholder)
  }

  /** The gallery: the record's images when they form a non-empty array, else the main image. */
  function Images(raw: RawProduct): (images: seq<string>)
    ensures |images| >= 1
    ensures raw.images.Some? && |raw.images.value| > 0 ==> images == raw.images.value
    ensures !(raw.images.Some? && |raw.images.value| > 0) ==> images == [ImageSrc(raw)]
  {
    if raw.images.Some? && |raw.images.value| > 0 then raw.images.value else [ImageSrc(raw)]
  }

  /** `formatPrice`: the amount in cents shown in the upper-cased currency by `intl`, which is
      `Intl.NumberFormat` and gives `None` where it throws a `RangeError` for a currency code it
      does not know. */
  function FormatPrice(amount: int, currency: string, intl: (real, string) -> Option<string>): Option<string> {
    intl(amount as real / 100.0, ToUpper(currency))
  }

  /** The currency code's case does not matter: "usd" and "USD" format alike, and are accepted
      or rejected alike. */
  lemma FormatPriceIgnoresCase(amount: int, currency: string, intl: (real, string) -> Option<string>)
    ensures FormatPrice(amount, currency, intl) == FormatPrice(amount, ToUpper(currency), intl)
  {
    UpperOfUpper(currency);
  }

  lemma UpperOfUpper(s: string)
    ensures ToUpper(ToUpper(s)) == ToUpper(s)
  {
    assert forall i :: 0 <= i < |s| ==> ToUpperChar(ToUpperChar(s[i])) == ToUpperChar(s[i]);
  }

  /** `default_price?.unit_amount` is truthy. */
  predicate HasUnitAmount(raw: RawProduct) {
    raw.defaultPrice.Some? && raw.defaultPrice.value.unitAmount.Some? && raw.defaultPrice.value.unitAmount.value != 0
  }

  function DefaultPriceText(raw: RawProduct, intl: (real, string) -> Option<string>): Option<string>
    requires HasUnitAmount(raw)
  {
    var dp := raw.defaultPrice.value;
    FormatPrice(dp.unitAmount.value, Or(dp.currency, "usd"), intl)
  }

  /** The list endpoint prefers the formatted default price, then `price`, then "$0"; `None`
      when formatting the default price throws. */
  function ListPrice(raw: RawProduct, intl: (real, string) -> Option<string>): (p: Option<string>)
    ensures HasUnitAmount(raw) ==> p == DefaultPriceText(raw, intl)
    ensures !HasUnitAmount(raw) ==> p == Some(Or(raw.price, "$0"))
  {
    if HasUnitAmount(raw) then DefaultPriceText(raw, intl) else Some(Or(raw.price, "$0"))
  }

  /** The single-product endpoint prefers `price`, then the formatted default price, then "$0";
      `None` when it has to format the default price and that throws. */
  function SinglePrice(raw: RawProduct, intl: (real, string) -> Option<string>): (p: Option<string>)
    ensures Truthy(raw.price) ==> p == raw.price
    ensures !Truthy(raw.price) && HasUnitAmount(raw) && DefaultPriceText(raw, intl).None? ==> p.None?
    ensures !Truthy(raw.price) && HasUnitAmount(raw) && Truthy(DefaultPriceText(raw, intl)) ==> p == DefaultPriceText(raw, intl)
    ensures !Truthy(raw.price) && (!HasUnitAmount(raw) || DefaultPriceText(raw, intl) == Some("")) ==> p == Some("$0")
  {
    var priceValue := raw.price;
    if !Truthy(priceValue) && HasUnitAmount(raw) && DefaultPriceText(raw, intl).None? then None
    else
      var priceValue := if !Truthy(priceValue) && HasUnitAmount(raw) then DefaultPriceText(raw, intl) else priceValue;
      if !Truthy(priceValue) then Some("$0") else priceValue
  }

  /** The two endpoints agree on the price unless a record has both a price and a default
      price with an amount (or the formatted default price is empty, which the list keeps and
      the single product replaces by "$0"). */
  lemma PricePrecedence(raw: RawProduct, intl: (real, string) -> Option<string>)
    ensures !HasUnitAmount(raw) ==> ListPrice(raw, intl) == SinglePrice(raw, intl) == Some(Or(raw.price, "$0"))
    ensures HasUnitAmount(raw) && !Truthy(raw.price) && DefaultPriceText(raw, intl) != Some("")
        ==> ListPrice(raw, intl) == SinglePrice(raw, intl) == DefaultPriceText(raw, intl)
    ensures HasUnitAmount(raw) && Truthy(raw.price)
        ==> ListPrice(raw, intl) == DefaultPriceText(raw, intl) && SinglePrice(raw, intl) == raw.price
  {
  }

  /** `default_price?.id || priceId` */
  function PriceId(raw: RawProduct): (id: Option<string>)
    ensures raw.defaultPrice.Some? && Truthy(raw.defaultPrice.value.id) ==> id == raw.defaultPrice.value.id
    ensures !(raw.defaultPrice.Some? && Truthy(raw.defaultPrice.value.id)) ==> id == raw.priceId
  {
    if raw.defaultPrice.Some? && Truthy(raw.defaultPrice.value.id) then raw.defaultPrice.value.id else raw.priceId
  }

  /** The record's metadata, normalised, or `None` when nothing is left. */
  function MetadataField(raw: RawProduct, dropEmpty: bool): (m: Option<Metadata>)
    ensures m.Some? ==> |m.value| > 0 && raw.metadata.Some? && m.value == Normalised(raw.metadata.value, dropEmpty)
    ensures m.None? ==> raw.metadata.None? || |Normalised(raw.metadata.value, dropEmpty)| == 0
  {
    var m := if raw.metadata.Some? then Normalised(raw.metadata.value, dropEmpty) else map[];
    if |m| > 0 then Some(m) else None
  }

  /** The mapping both endpoints share; only the price and the metadata rule differ. */
  function MapRecord(raw: RawProduct, freshId: string, price: string, dropEmpty: bool, show: real -> string): (p: Product)
    ensures p.id == Or(raw.id, freshId) && p.name == Or(raw.name, DefaultName) && p.name != ""
    ensures p.description == Some(Or(raw.description, ""))
    ensures p.imageSrc == ImageSrc(raw) && p.imageSrc != ""
    ensures p.imageAlt == Some(Or(raw.imageAlt, Or(raw.name, "")))
    ensures p.images == Some(Images(raw)) && |p.images.value| >= 1
    ensures p.priceId == PriceId(raw)
    ensures var v := RawLookup(raw.metadata, "rating");
      p.rating == if RawTruthy(v) then Some(RawNumber(v)) else None
    ensures var v := RawLookup(raw.metadata, "reviewCount");
      p.reviewCount == if RawTruthy(v) then Some(RawText(v, show)) else None
    ensures p.brand == Some(MetaOrField(raw, "brand", raw.brand, show))
    ensures p.variant == Some(MetaOrField(raw, "variant", raw.variant, show))
    ensures p.metadata == MetadataField(raw, dropEmpty)
    ensures p.price == price
  {
    var rating := RawLookup(raw.metadata, "rating");
    var reviewCount := RawLookup(raw.metadata, "reviewCount");
    Product(
      id := Or(raw.id, freshId),
      name := Or(raw.name, DefaultName),
      price := price,
      imageSrc := ImageSrc(raw),
      imageAlt := Some(Or(raw.imageAlt, Or(raw.name, ""))),
      images := Some(Images(raw)),
      brand := Some(MetaOrField(raw, "brand", raw.brand, show)),
      variant := Some(MetaOrField(raw, "variant", raw.variant, show)),
      rating := if RawTruthy(rating) then Some(RawNumber(rating)) else None,
      reviewCount := if RawTruthy(reviewCount) then Some(RawText(reviewCount, show)) else None,
      description := Some(Or(raw.description, "")),
      priceId := PriceId(raw),
      metadata := MetadataField(raw, dropEmpty))
  }

  /** One record of the list endpoint; `None` when formatting its price throws. */
  function MapListRecord(raw: RawProduct, freshId: string, intl: (real, string) -> Option<string>, show: real -> string)
    : (p: Option<Product>)
    ensures p.Some? <==> ListPrice(raw, intl).Some?
    ensures p.Some? ==> p.value.price == ListPrice(raw, intl).value && p.value.metadata == MetadataField(raw, false)
  {
    match ListPrice(raw, intl)
    case None => None
    case Some(price) => Some(MapRecord(raw, freshId, price, false, show))
  }

  /** The record of the single-product endpoint; `None` when formatting its price throws. */
  function MapSingleRecord(raw: RawProduct, freshId: string, intl: (real, string) -> Option<string>, show: real -> string)
    : (p: Option<Product>)
    ensures p.Some? <==> SinglePrice(raw, intl).Some?
    ensures p.Some? ==> p.value.price == SinglePrice(raw, intl).value && p.value.metadata == MetadataField(raw, true)
  {
    match SinglePrice(raw, intl)
    case None => None
    case Some(price) => Some(MapRecord(raw, freshId, price, true, show))
  }

  // ---------------------------------------------------------------------------------------
  // The two requests

  /** The records of a list response: `resp.data.data || resp.data` when it is a non-empty
      array; `None` when there is none or reading `data` throws. */
  function ListRecords(resp: Json<RawProduct>): (rs: Option<seq<Option<RawProduct>>>)
    ensures rs.Some? ==> |rs.value| > 0
    ensures resp.Member().None? || resp.Member().value.Member().None? ==> rs.None?
    ensures resp.Member().Some? && resp.Member().value.Member().Some? ==>
      var d1 := resp.Member().value;
      var data := if d1.Member().value.Truthy() then d1.Member().value else d1;
      (rs.Some? <==> data.JArray? && |data.elements| > 0) && (rs.Some? ==> rs.value == data.elements)
  {
    match resp.Member()
    case None => None
    case Some(d1) =>
      match d1.Member()
      case None => None
      case Some(d2) =>
        var data := if d2.Truthy() then d2 else d1;
        if data.JArray? && |data.elements| > 0 then Some(data.elements) else None
  }

  /** Both shapes of a list response: the records directly under `data`, or under
      `data.data`. */
  lemma ListRecordsShapes(outer: RawProduct, inner: RawProduct, rs: seq<Option<RawProduct>>)
    requires |rs| > 0
    ensures ListRecords(JObject(outer, JArray(rs))) == Some(rs)
    ensures ListRecords(JObject(outer, JObject(inner, JArray(rs)))) == Some(rs)
    ensures ListRecords(JObject(outer, JArray([]))) == None
  {
  }

  /** Every record is there and maps without throwing. */
  predicate ListMapped(rs: seq<Option<RawProduct>>, freshIds: nat -> string, intl: (real, string) -> Option<string>,
                       show: real -> string) {
    forall i :: 0 <= i < |rs| ==> rs[i].Some? && MapListRecord(rs[i].value, freshIds(i), intl, show).Some?
  }

  /** `fetchProducts`: `freshIds(i)` is the random id the `i`-th record would get. A `null`
      element makes the `map` callback throw on `product.metadata`, a currency `Intl` rejects
      makes it throw in `formatPrice`, and either way the `catch` gives no products. */
  function FetchProducts(config: Config, response: Response<Json<RawProduct>>, freshIds: nat -> string,
                         intl: (real, string) -> Option<string>, show: real -> string): (ps: seq<Product>)
    ensures !config.Present() || !response.Ok? ==> ps == []
    ensures response.Ok? && ListRecords(response.body).None? ==> ps == []
    ensures response.Ok? && ListRecords(response.body).Some? &&
            !ListMapped(ListRecords(response.body).value, freshIds, intl, show) ==>
      ps == []
    ensures config.Present() && response.Ok? && ListRecords(response.body).Some? &&
            ListMapped(ListRecords(response.body).value, freshIds, intl, show) ==>
      var rs := ListRecords(response.body).value;
      |ps| == |rs| && forall i :: 0 <= i < |rs| ==> ps[i] == MapListRecord(rs[i].value, freshIds(i), intl, show).value
  {
    if !config.Present() then []
    else
      match response
      case Ok(resp) =>
        (match ListRecords(resp)
         case None => []
         case Some(rs) =>
           if ListMapped(rs, freshIds, intl, show)
           then seq(|rs|, i requires 0 <= i < |rs| => MapListRecord(rs[i].value, freshIds(i), intl, show).value)
           else [])
      case _ => []
  }

  /** One `null` or `undefined` record among the list response's records gives no products at
      all, however many other records there are. */
  lemma NullRecordYieldsNoProducts(config: Config, resp: Json<RawProduct>, freshIds: nat -> string,
                                   intl: (real, string) -> Option<string>, show: real -> string, i: nat)
    requires ListRecords(resp).Some? && i < |ListRecords(resp).value|
    requires ListRecords(resp).value[i].None?
    ensures FetchProducts(config, Ok(resp), freshIds, intl, show) == []
  {
  }

  /** One record whose default price is in a currency `Intl` rejects gives no products at
      all, however many other records there are. */
  lemma RejectedCurrencyYieldsNoProducts(config: Config, resp: Json<RawProduct>, freshIds: nat -> string,
                                         intl: (real, string) -> Option<string>, show: real -> string, i: nat)
    requires ListRecords(resp).Some? && i < |ListRecords(resp).value|
    requires ListRecords(resp).value[i].Some? && HasUnitAmount(ListRecords(resp).value[i].value)
    requires DefaultPriceText(ListRecords(resp).value[i].value, intl).None?
    ensures FetchProducts(config, Ok(resp), freshIds, intl, show) == []
  {
  }

  /** The record of a single-product response: `resp.data?.data || resp.data || resp` when it
      is an object (an array reads as a record without fields). */
  function SingleRecord(resp: Json<RawProduct>): (r: Option<RawProduct>)
    ensures resp.Member().None? ==> r.None?
    ensures resp.Member().Some? ==>
      var d1 := resp.Member().value;
      var d2 := d1.OptionalMember();
      && (d2.JObject? ==> r == Some(d2.record))
      && (!d2.Truthy() && d1.JObject? ==> r == Some(d1.record))
      && (!d2.Truthy() && !d1.Truthy() && resp.JObject? ==> r == Some(resp.record))
      && (d2.JScalar? || (!d2.Truthy() && d1.JScalar?) ==> r.None?)
      && (d2.JArray? ==> r == Some(NoFields))
      && (!d2.Truthy() && !d1.Truthy() && !resp.JObject? && !resp.JArray? ==> r.None?)
  {
    match resp.Member()
    case None => None
    case Some(d1) =>
      var d2 := d1.OptionalMember();
      var p := if d2.Truthy() then d2 else if d1.Truthy() then d1 else resp;
      match p
      case JObject(r, _) => Some(r)
      case JArray(_) => Some(NoFields)
      case _ => None
  }

  /** The record is found under `data.data`, under `data`, or, when `data` is `null`, is the
      body itself. */
  lemma SingleRecordShapes(outer: RawProduct, inner: RawProduct, deep: RawProduct)
    ensures SingleRecord(JObject(outer, JObject(inner, JObject(deep, JUndefined)))) == Some(deep)
    ensures SingleRecord(JObject(outer, JObject(inner, JUndefined))) == Some(inner)
    ensures SingleRecord(JObject(outer, JNull)) == Some(outer)
    ensures SingleRecord(JObject(outer, JScalar)) == None
    ensures SingleRecord(JNull) == None
  {
  }

  /** `fetchProduct` */
  function FetchProduct(config: Config, response: Response<Json<RawProduct>>, freshId: string,
                        intl: (real, string) -> Option<string>, show: real -> string): (p: Option<Product>)
    ensures !config.Present() || !response.Ok? ==> p.None?
    ensures response.Ok? && SingleRecord(response.body).None? ==> p.None?
    ensures config.Present() && response.Ok? && SingleRecord(response.body).Some? ==>
      p == MapSingleRecord(SingleRecord(response.body).value, freshId, intl, show)
  {
    if !config.Present() then None
    else
      match response
      case Ok(resp) =>
        (match SingleRecord(resp)
         case None => None
         case Some(r) => MapSingleRecord(r, freshId, intl, show))
      case _ => None
  }

  /** A record without a truthy `price` whose default price is in a currency `Intl` rejects
      gives no product; a truthy `price` is shown without asking `Intl` at all. */
  lemma RejectedCurrencyYieldsNoProduct(config: Config, resp: Json<RawProduct>, freshId: string,
                                        intl: (real, string) -> Option<string>, other: (real, string) -> Option<string>,
                                        show: real -> string)
    requires SingleRecord(resp).Some?
    ensures var r := SingleRecord(resp).value;
      !Truthy(r.price) && HasUnitAmount(r) && DefaultPriceText(r, intl).None? ==>
        FetchProduct(config, Ok(resp), freshId, intl, show).None?
    ensures Truthy(SingleRecord(resp).value.price) ==>
      FetchProduct(config, Ok(resp), freshId, intl, show) == FetchProduct(config, Ok(resp), freshId, other, show)
  {
  }

  /** Every product either request returns has a non-empty gallery and a main image. */
  lemma FetchedProductsHaveImages(config: Config, response: Response<Json<RawProduct>>, freshIds: nat -> string,
                                  intl: (real, string) -> Option<string>, show: real -> string, i: nat)
    requires i < |FetchProducts(config, response, freshIds, intl, show)|
    ensures var p := FetchProducts(config, response, freshIds, intl, show)[i];
            p.images.Some? && |p.images.value| >= 1 && p.imageSrc != ""
  {
  }
}
