/**
 * The view-model of `src/pages/VendorDetail.tsx`: what the detail screen
 * derives from a loaded vendor record (masked account number, fallbacks,
 * delivery-charge selection, list chips, optional blocks) and the page state
 * that `loadVendor` sets.
 */
module VendorDetail {
  import opened Wrappers
  import opened JsValue
  import opened Api

  const NotProvided := "Not provided"

  // ---------------------------------------------------------------------------
  // Bank and payment
  // ---------------------------------------------------------------------------

  /** `vendor.key || 'Not provided'`: a shown bank field is never blank. */
  function BankFieldText(vendor: Value, key: string): (r: Value)
    requires Truthy(vendor)
    ensures Truthy(r)
    ensures Truthy(Get(vendor, key)) ==> r == Get(vendor, key)
    ensures !Truthy(Get(vendor, key)) ==> r == Str(NotProvided)
  {
    Or(Get(vendor, key), Str(NotProvided))
  }

  /** `xs.slice(-4)`: the last four elements, or all of them when there are fewer. */
  function LastFour<T>(xs: seq<T>): (r: seq<T>)
    ensures |r| == if |xs| < 4 then |xs| else 4
    ensures r == xs[|xs| - |r|..]
  {
    if |xs| <= 4 then xs else xs[|xs| - 4..]
  }

  /**
   * The account-number line: `'****'` and the last four characters of a
   * provided number, 'Not provided' for a falsy one. A truthy value that has
   * no `slice` (number, boolean, plain object) throws; an array's last four
   * elements are rendered through `String`.
   */
  function MaskedAccountNumber(account: Value): (r: Result<string, Failure>)
    ensures !Truthy(account) ==> r == Ok(NotProvided)
    ensures account.Str? && account.s != "" ==> r == Ok("****" + LastFour(account.s))
    ensures account.Arr? ==> r == Ok("****" + ToJsString(Arr(LastFour(account.items))))
    ensures r.Err? <==> Truthy(account) && !account.Str? && !account.Arr?
    ensures r.Err? ==> r.error == TypeError
  {
    if !Truthy(account) then Ok(NotProvided)
    else
      match account
      case Str(s) => Ok("****" + LastFour(s))
      case Arr(items) => Ok("****" + ToJsString(Arr(LastFour(items))))
      case _ => Err(TypeError)
  }

  /**
   * A string account number shows at most its last four characters after
   * four asterisks, so two numbers that end alike look alike; the mask is
   * never mistaken for 'Not provided'.
   */
  lemma MaskRevealsOnlyLastFour(s: string, t: string)
    requires s != ""
    ensures var r := MaskedAccountNumber(Str(s)).value;
      && r[..4] == "****"
      && |r| == 4 + (if |s| < 4 then |s| else 4)
      && r[4..] == s[|s| - |r[4..]|..]
      && r != NotProvided
    ensures t != "" && LastFour(s) == LastFour(t) ==> MaskedAccountNumber(Str(s)) == MaskedAccountNumber(Str(t))
  {
    var r := MaskedAccountNumber(Str(s)).value;
    assert r[0] == '*' && NotProvided[0] == 'N';
  }

  /** The UPI, PayPal and agent blocks as React renders `value && <block/>`. */
  datatype Optional = Block(value: Value) | BareText(text: string) | NothingShown

  /**
   * `value && <block/>`: the block for a truthy value; a falsy value is
   * rendered itself, which shows text only for the number 0.
   */
  function OptionalBlock(value: Value): (r: Optional)
    ensures r.Block? <==> Truthy(value)
    ensures r.Block? ==> r.value == value
    ensures r.BareText? <==> value == Num(0)
    ensures r.BareText? ==> r.text == "0"
  {
    if Truthy(value) then Block(value)
    else if value.Num? then BareText(ToJsString(value))
    else NothingShown
  }

  /** `value ? 'Yes' : 'No'`, as the Pure Veg and Popular lines show it. */
  function YesNo(value: Value): (r: string)
    ensures r == "Yes" <==> Truthy(value)
    ensures r == "Yes" || r == "No"
  {
    if Truthy(value) then "Yes" else "No"
  }

  // ---------------------------------------------------------------------------
  // Delivery charge
  // ---------------------------------------------------------------------------

  /** The delivery-charge caption and the amount shown under it. */
  datatype ChargeView = ChargeView(caption: string, amount: Value)

  /**
   * The charge line: fixed exactly when `deliveryChargeType === 'fixed'`,
   * and the amount is always the charge the caption names.
   */
  function DeliveryCharge(vendor: Value): (r: ChargeView)
    requires Truthy(vendor)
    ensures r.caption == "Fixed Charge" || r.caption == "Dynamic Charge"
    ensures r.caption == "Fixed Charge" <==> Get(vendor, "deliveryChargeType") == Str("fixed")
    ensures r.amount == Get(vendor, if r.caption == "Fixed Charge" then "fixedCharge" else "dynamicCharge")
  {
    var fixed := Get(vendor, "deliveryChargeType") == Str("fixed");
    ChargeView(if fixed then "Fixed Charge" else "Dynamic Charge",
               if fixed then Get(vendor, "fixedCharge") else Get(vendor, "dynamicCharge"))
  }

  /** The comparison is strict: any other spelling of the type is shown as dynamic. */
  lemma ChargeTypeIsCaseSensitive(fields: map<string, Value>)
    requires Field(fields, "deliveryChargeType") == Str("Fixed")
    ensures DeliveryCharge(Obj(fields)) == ChargeView("Dynamic Charge", Field(fields, "dynamicCharge"))
  {
  }

  // ---------------------------------------------------------------------------
  // Category and service lists
  // ---------------------------------------------------------------------------

  /** A list line: one chip per element, or the placeholder text. */
  datatype ListView = Chips(items: seq<Value>) | Placeholder(text: string)

  /**
   * `x > 0` for the `length` values a record can carry. A string, and an array
   * through the string it converts to, counts as positive when it is a plain
   * decimal numeral with a non-zero digit; `null` is 0, and `undefined` and
   * objects are NaN.
   */
  predicate IsPositive(x: Value)
  {
    match x
    case Num(n) => n > 0
    case Bool(b) => b
    case Str(s) => IsPositiveNumeral(s)
    case Arr(_) => IsPositiveNumeral(ToJsString(x))
    case _ => false
  }

  /** A one-element array holding a positive number is a positive `length`: `[5] > 0`. */
  lemma SingletonArrayIsPositive(n: int)
    requires n > 0
    ensures IsPositive(Arr([Num(n)]))
    ensures IsPositive(Str(IntToString(n)))
  {
    PositiveRendersPositive(n);
    assert ToJsString(Arr([Num(n)])) == IntToString(n);
  }

  /** An object whose `length` is `[n]` for a positive `n` reaches `.map` and throws. */
  lemma ArrayLengthReachesMap(fields: map<string, Value>, n: int, placeholder: string)
    requires Field(fields, "length") == Arr([Num(n)]) && n > 0
    ensures ListSection(Obj(fields), placeholder) == Err(TypeError)
  {
    SingletonArrayIsPositive(n);
  }

  /**
   * `list && list.length > 0 ? list.map(chip) : placeholder`. A non-empty
   * string, or an object whose own `length` is positive, reaches `.map`,
   * which it does not have: a TypeError.
   */
  function ListSection(list: Value, placeholder: string): (r: Result<ListView, Failure>)
    ensures (r.Ok? && r.value.Chips?) <==> list.Arr? && |list.items| > 0
    ensures r.Ok? && r.value.Chips? ==> r.value.items == list.items
    ensures r.Err? <==> (list.Str? && list.s != "") || (list.Obj? && IsPositive(Field(list.fields, "length")))
    ensures r.Err? ==> r.error == TypeError
    ensures r.Ok? && r.value.Placeholder? ==> r.value.text == placeholder
  {
    if Truthy(list) && (GetLength(list); IsPositive(Get(list, "length"))) then
      if list.Arr? then Ok(Chips(list.items)) else Err(TypeError)
    else Ok(Placeholder(placeholder))
  }

  /** The categories line. */
  function Categories(vendor: Value): Result<ListView, Failure>
    requires Truthy(vendor)
  {
    ListSection(Get(vendor, "categories"), "No categories")
  }

  /** The services line. */
  function Services(vendor: Value): Result<ListView, Failure>
    requires Truthy(vendor)
  {
    ListSection(Get(vendor, "services"), "No services")
  }

  /** A missing or empty list shows the placeholder, never chips. */
  lemma AbsentListShowsPlaceholder(fields: map<string, Value>)
    requires Field(fields, "categories") in {Undefined, Null, Arr([])}
    requires Field(fields, "services") in {Undefined, Null, Arr([])}
    ensures Categories(Obj(fields)) == Ok(Placeholder("No categories"))
    ensures Services(Obj(fields)) == Ok(Placeholder("No services"))
  {
  }

  // ---------------------------------------------------------------------------
  // Loading
  // ---------------------------------------------------------------------------

  /** What the page shows. */
  datatype Screen = Loading | NotFound | Details(vendor: Value)

  /** `normalizeVendor(response.data)` where `response` is what the request resolved to. */
  function FetchVendor(reply: Option<HttpReply>): (r: Result<Value, Failure>)
    ensures r.Ok? ==> r.value.Obj?
  {
    match Outcome(reply)
    case Err(e) => Err(e)
    case Ok(response) =>
      match Member(response, "data")
      case Err(e) => Err(e)
      case Ok(data) => NormalizeVendor(data)
  }

  /** The vendor `loadVendor` stores: the normalised record, or `null` when anything threw. */
  function LoadedVendor(reply: Option<HttpReply>): (r: Value)
    ensures r == Null || r.Obj?
    ensures r == Null <==> FetchVendor(reply).Err?
  {
    match FetchVendor(reply)
    case Ok(v) => v
    case Err(_) => Null
  }

  /** The rendering decision: loading first, then "Vendor not found" for a falsy vendor. */
  function ScreenOf(isLoading: bool, vendor: Value): Screen
  {
    if isLoading then Loading else if !Truthy(vendor) then NotFound else Details(vendor)
  }

  /** After a load the details are shown exactly when the record arrived and normalised. */
  lemma ScreenAfterLoad(reply: Option<HttpReply>)
    ensures FetchVendor(reply).Ok? ==> ScreenOf(false, LoadedVendor(reply)) == Details(FetchVendor(reply).value)
    ensures FetchVendor(reply).Err? ==> ScreenOf(false, LoadedVendor(reply)) == NotFound
  {
  }

  /** A successful reply shows exactly the normalised `data` of its body. */
  lemma SuccessfulLoadShowsNormalized(fields: map<string, Value>, data: map<string, Value>)
    requires Field(fields, "data") == Obj(data)
    requires Field(data, "restaurantImage") != Null
    ensures NormalizeVendor(Obj(data)).Ok?
    ensures ScreenOf(false, LoadedVendor(Some(HttpReply(true, Obj(fields)))))
      == Details(NormalizeVendor(Obj(data)).value)
  {
  }

  /** A failed reply, a reply without a vendor, and a network failure all end at "Vendor not found". */
  lemma FailedLoadShowsNotFound(body: Value)
    ensures ScreenOf(false, LoadedVendor(Some(HttpReply(false, body)))) == NotFound
    ensures ScreenOf(false, LoadedVendor(None)) == NotFound
    ensures body.Obj? && Field(body.fields, "data") == Undefined ==>
      ScreenOf(false, LoadedVendor(Some(HttpReply(true, body)))) == NotFound
  {
  }

  /**
   * Normalising a record does not change any line the details screen derives
   * from fields other than `id` and `restaurantImage`.
   */
  lemma NormalizationKeepsShownFields(fields: map<string, Value>, key: string)
    requires NormalizeVendor(Obj(fields)).Ok?
    requires key != "id" && key != "restaurantImage"
    ensures var n := NormalizeVendor(Obj(fields)).value;
      && Get(n, key) == Get(Obj(fields), key)
      && BankFieldText(n, key) == BankFieldText(Obj(fields), key)
      && MaskedAccountNumber(Get(n, "accountNumber")) == MaskedAccountNumber(Field(fields, "accountNumber"))
      && DeliveryCharge(n) == DeliveryCharge(Obj(fields))
      && Categories(n) == Categories(Obj(fields))
      && Services(n) == Services(Obj(fields))
  {
  }

  /** The detail page's component state. */
  class VendorDetailPage {
    var vendor: Value
    var isLoading: bool

    /** Nothing loaded yet: `vendor` is `null` and the page is loading. */
    constructor ()
      ensures vendor == Null && isLoading
    {
      vendor, isLoading := Null, true;
    }

    /** What the page renders now. */
    function CurrentScreen(): Screen
      reads this
    {
      ScreenOf(isLoading, vendor)
    }

    /**
     * `loadVendor`: requests the vendor's path, stores the normalised record
     * or `null` when the request or the normalisation threw, and stops
     * loading either way.
     */
    method LoadVendor(id: string, reply: Option<HttpReply>) returns (endpoint: string)
      modifies this
      ensures endpoint == VendorPath(id)
      ensures vendor == LoadedVendor(reply) && !isLoading
      ensures CurrentScreen() == if FetchVendor(reply).Ok? then Details(FetchVendor(reply).value) else NotFound
    {
      isLoading := true;
      endpoint := VendorPath(id);
      var outcome := FetchVendor(reply);
      if outcome.Ok? {
        vendor := outcome.value;
      } else {
        vendor := Null;
      }
      isLoading := false;
      ScreenAfterLoad(reply);
    }

    /** The mount effect: a load only when the route carries an identifier. */
    method Mount(id: string, reply: Option<HttpReply>)
      modifies this
      ensures id == "" ==> vendor == old(vendor) && isLoading == old(isLoading)
      ensures id != "" ==> vendor == LoadedVendor(reply) && !isLoading
      ensures id == "" ==> CurrentScreen() == old(CurrentScreen())
    {
      if id != "" {
        var _ := LoadVendor(id, reply);
      }
    }
  }
}
