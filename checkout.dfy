/** The checkout hook: it posts a list of checkout items to the checkout-session endpoint,
    keeps a loading flag and the last error, and sends the browser to the session URL the
    server answers with. The server is a parameter mapping the request sent to its outcome;
    the current location is a parameter too. */
module Checkout {
  import opened Wrappers
  import opened Text
  import opened Numbers
  import opened Api
  import opened ProductApi
  import opened Urls

  /** A metadata value of a checkout item: text or a number. */
  datatype ItemValue = IStr(s: string) | INum(n: Num)

  type ItemMetadata = map<string, ItemValue>

  datatype CheckoutItem = CheckoutItem(
    productId: string,
    quantity: int,
    imageSrc: Option<string>,
    imageAlt: Option<string>,
    metadata: Option<ItemMetadata>)

  datatype CheckoutOptions = CheckoutOptions(successUrl: Option<string>, cancelUrl: Option<string>)

  /** The JSON body posted, with the URL it goes to. */
  datatype CheckoutRequest = CheckoutRequest(
    endpoint: string,
    projectId: string,
    items: seq<CheckoutItem>,
    successUrl: string,
    cancelUrl: string)

  /** What the request comes to: an exception (with its message when it is an `Error`), a
      response that is not OK (with the `message` of its JSON body, if any), or a created
      session (with `data.url`, if any). */
  datatype Outcome =
    | Failed(message: Option<string>)
    | Rejected(status: int, message: Option<string>)
    | Created(url: Option<string>)

  datatype CheckoutResult = CheckoutResult(success: bool, url: Option<string>, error: Option<string>)

  const NotConfigured := "NEXT_PUBLIC_API_URL or NEXT_PUBLIC_PROJECT_ID not configured"

  const FailedSession := "Failed to create checkout session"

  const StatusPrefix := "Request failed with status "

  const SessionPath := "/stripe/project/checkout-session"

  /** The request `checkout` sends: both redirect URLs default to the current page. */
  function RequestFor(config: Config, items: seq<CheckoutItem>, options: CheckoutOptions, here: Url)
    : (r: CheckoutRequest)
    ensures r.endpoint == config.apiUrl + SessionPath
    ensures StartsWith(r.endpoint, config.apiUrl) && EndsWith(r.endpoint, SessionPath)
    ensures r.projectId == config.projectId && r.items == items
    ensures Truthy(options.successUrl) ==> r.successUrl == options.successUrl.value
    ensures !Truthy(options.successUrl) ==> r.successUrl == Href(here)
    ensures Truthy(options.cancelUrl) ==> r.cancelUrl == options.cancelUrl.value
    ensures !Truthy(options.cancelUrl) ==> r.cancelUrl == Href(here)
  {
    var endpoint := config.apiUrl + SessionPath;
    assert endpoint[..|config.apiUrl|] == config.apiUrl;
    assert endpoint[|endpoint| - |SessionPath|..] == SessionPath;
    CheckoutRequest(endpoint, config.projectId, items, Or(options.successUrl, Href(here)), Or(options.cancelUrl, Href(here)))
  }

  /** The error text a failed outcome is reported with; none for a created session. A
      rejection without a message names its status, which reads back with `parseInt`. */
  function ErrorOf(o: Outcome): (e: Option<string>)
    ensures e.None? <==> o.Created?
    ensures o.Failed? ==> e == Some(o.message.GetOr(FailedSession))
    ensures o.Rejected? && Truthy(o.message) ==> e == o.message
    ensures o.Rejected? && !Truthy(o.message) ==>
      StartsWith(e.value, StatusPrefix) && ParseInt(e.value[|StatusPrefix|..]) == Finite(o.status as real)
  {
    match o
    case Failed(m) => Some(m.GetOr(FailedSession))
    case Rejected(status, m) =>
      var text := StatusPrefix + IntToString(status);
      assert text[..|StatusPrefix|] == StatusPrefix && text[|StatusPrefix|..] == IntToString(status);
      ParseIntOfIntToString(status);
      Some(Or(m, text))
    case Created(_) => None
  }

  /** What `checkout` resolves to. */
  function ResultOf(config: Config, o: Outcome): (r: CheckoutResult)
    ensures r.success <==> config.Present() && o.Created?
    ensures r.success <==> r.error.None?
    ensures !config.Present() ==> r.error == Some(NotConfigured)
    ensures config.Present() ==> r.error == ErrorOf(o)
    ensures r.url.Some? ==> r.success && r.url == o.url
    ensures r.success ==> r.url == o.url
  {
    if !config.Present() then CheckoutResult(false, None, Some(NotConfigured))
    else if o.Created? then CheckoutResult(true, o.url, None)
    else CheckoutResult(false, None, ErrorOf(o))
  }

  /** Where the browser is sent: the session URL, when the session was created with one. */
  function NavigationOf(config: Config, o: Outcome): (n: Option<string>)
    ensures n.Some? <==> ResultOf(config, o).success && Truthy(o.url)
    ensures n.Some? ==> n == ResultOf(config, o).url
  {
    if config.Present() && o.Created? && Truthy(o.url) then o.url else None
  }

  /** A bare product id checks out without image or metadata. */
  datatype BuyTarget = ById(id: string) | Whole(product: Product)

  function ItemValueOf(v: MetaValue): ItemValue {
    match v
    case MStr(s) => IStr(s)
    case MNum(x) => INum(Finite(x))
  }

  const ImageKeys: set<string> := {"imageSrc", "imageAlt", "images"}

  predicate HasMetadata(p: Product) {
    p.metadata.Some? && |p.metadata.value| > 0
  }

  /** The metadata `buyNow` sends: the product's own metadata without the image entries,
      or, when the product has none, its brand, variant, rating and review count as far as
      they are set. */
  function BuyNowMetadata(p: Product): (m: ItemMetadata)
    ensures HasMetadata(p) ==> m.Keys == p.metadata.value.Keys - ImageKeys
    ensures HasMetadata(p) ==> forall k :: k in m ==> m[k] == ItemValueOf(p.metadata.value[k])
    ensures !HasMetadata(p) ==> m.Keys <= {"brand", "variant", "rating", "reviewCount"}
    ensures !HasMetadata(p) ==> ("brand" in m <==> Truthy(p.brand)) && ("variant" in m <==> Truthy(p.variant))
    ensures !HasMetadata(p) ==> ("rating" in m <==> p.rating.Some?) && ("reviewCount" in m <==> Truthy(p.reviewCount))
    ensures !HasMetadata(p) && Truthy(p.brand) ==> m["brand"] == IStr(p.brand.value)
    ensures !HasMetadata(p) && Truthy(p.variant) ==> m["variant"] == IStr(p.variant.value)
    ensures !HasMetadata(p) && p.rating.Some? ==> m["rating"] == INum(p.rating.value)
    ensures !HasMetadata(p) && Truthy(p.reviewCount) ==> m["reviewCount"] == IStr(p.reviewCount.value)
  {
    if HasMetadata(p) then
      var rest := p.metadata.value - ImageKeys;
      map k | k in rest :: ItemValueOf(rest[k])
    else
      var m0: ItemMetadata := map[];
      var m1 := if Truthy(p.brand) then m0["brand" := IStr(p.brand.value)] else m0;
      var m2 := if Truthy(p.variant) then m1["variant" := IStr(p.variant.value)] else m1;
      var m3 := if p.rating.Some? then m2["rating" := INum(p.rating.value)] else m2;
      if Truthy(p.reviewCount) then m3["reviewCount" := IStr(p.reviewCount.value)] else m3
  }

  /** The one item `buyNow` checks out. */
  function BuyNowItem(target: BuyTarget, quantity: int): (item: CheckoutItem)
    ensures item.quantity == quantity
    ensures target.ById? ==> item == CheckoutItem(target.id, quantity, None, None, None)
    ensures target.Whole? ==> item.productId == target.product.id
    ensures target.Whole? ==> item.imageSrc == Some(target.product.imageSrc) && item.imageAlt == target.product.imageAlt
    ensures target.Whole? ==> (item.metadata.None? <==> |BuyNowMetadata(target.product)| == 0)
    ensures target.Whole? && item.metadata.Some? ==> item.metadata.value == BuyNowMetadata(target.product)
  {
    match target
    case ById(id) => CheckoutItem(id, quantity, None, None, None)
    case Whole(p) =>
      var m := BuyNowMetadata(p);
      CheckoutItem(p.id, quantity, Some(p.imageSrc), p.imageAlt, if |m| > 0 then Some(m) else None)
  }

  /** The current page with `success=true` set. */
  function SuccessUrl(here: Url): (u: Url)
    ensures u.path == here.path && u.hash == here.hash
    ensures Get(u.query, "success") == Some("true")
  {
    GetSet(here.query, "success", "true");
    here.(query := Set(here.query, "success", "true"))
  }

  /** The success URL keeps every other parameter of the current page. */
  lemma SuccessUrlKeepsOthers(here: Url, k: string)
    requires k != "success"
    ensures Get(SuccessUrl(here).query, k) == Get(here.query, k)
  {
    GetSetOther(here.query, "success", "true", k);
  }

  /** The state the hook keeps, and the page the browser was sent to. */
  class CheckoutState {
    var isLoading: bool
    var error: Option<string>
    var navigatedTo: Option<string>

    constructor()
      ensures !isLoading && error.None? && navigatedTo.None?
    {
      isLoading := false;
      error := None;
      navigatedTo := None;
    }

    /** `checkout(items, options)`; `sent` is the request posted, if any. */
    method Checkout(config: Config, items: seq<CheckoutItem>, options: CheckoutOptions, here: Url,
                    server: CheckoutRequest -> Outcome)
      returns (r: CheckoutResult, sent: Option<CheckoutRequest>)
      modifies this
      ensures !config.Present() ==> sent.None? && r == CheckoutResult(false, None, Some(NotConfigured))
      ensures !config.Present() ==> isLoading == old(isLoading) && navigatedTo == old(navigatedTo)
      ensures config.Present() ==> sent == Some(RequestFor(config, items, options, here))
      ensures config.Present() ==> r == ResultOf(config, server(sent.value)) && !isLoading
      ensures config.Present() && NavigationOf(config, server(sent.value)).Some? ==>
        navigatedTo == NavigationOf(config, server(sent.value))
      ensures config.Present() && NavigationOf(config, server(sent.value)).None? ==> navigatedTo == old(navigatedTo)
      ensures error == r.error
    {
      if !config.Present() {
        error := Some(NotConfigured);
        return CheckoutResult(false, None, Some(NotConfigured)), None;
      }
      isLoading := true;
      error := None;
      var request := RequestFor(config, items, options, here);
      sent := Some(request);
      var outcome := server(request);
      match outcome {
        case Rejected(status, message) =>
          var text := Or(message, StatusPrefix + IntToString(status));
          error := Some(text);
          r := CheckoutResult(false, None, Some(text));
        case Created(url) =>
          if Truthy(url) {
            navigatedTo := url;
          }
          r := CheckoutResult(true, url, None);
        case Failed(message) =>
          var text := message.GetOr(FailedSession);
          error := Some(text);
          r := CheckoutResult(false, None, Some(text));
      }
      isLoading := false;
    }

    /** `buyNow(product, quantity)`: checks out one item and comes back with `success=true`.
        An omitted `quantity` is 1. */
    method BuyNow(config: Config, target: BuyTarget, quantity: Option<int>, here: Url,
                  server: CheckoutRequest -> Outcome)
      returns (r: CheckoutResult, sent: Option<CheckoutRequest>)
      modifies this
      ensures var request := RequestFor(config, [BuyNowItem(target, quantity.GetOr(1))],
                                        CheckoutOptions(Some(Href(SuccessUrl(here))), None), here);
              && (config.Present() ==> sent == Some(request) && r == ResultOf(config, server(request)) && !isLoading)
              && (config.Present() && NavigationOf(config, server(request)).Some? ==>
                    navigatedTo == NavigationOf(config, server(request)))
              && (config.Present() && NavigationOf(config, server(request)).None? ==> navigatedTo == old(navigatedTo))
      ensures !config.Present() ==> sent.None? && r == CheckoutResult(false, None, Some(NotConfigured))
      ensures !config.Present() ==> isLoading == old(isLoading) && navigatedTo == old(navigatedTo)
      ensures error == r.error
    {
      var success := SuccessUrl(here);
      r, sent := Checkout(config, [BuyNowItem(target, quantity.GetOr(1))], CheckoutOptions(Some(Href(success)), None),
                          here, server);
    }

    /** `clearError()` */
    method ClearError()
      modifies this
      ensures error.None? && isLoading == old(isLoading) && navigatedTo == old(navigatedTo)
    {
      error := None;
    }
  }
}
