/**
 * The request shaping and record normalisation of `src/lib/api.ts`: the
 * canonical vendor record, the `getVendors` query string, the header merge and
 * the outcome of a reply in `request`, and the endpoint paths. The HTTP
 * exchange itself is a parameter (`HttpReply`), never performed.
 */
module Api {
  import opened Wrappers
  import opened JsValue

  // ---------------------------------------------------------------------------
  // Vendor record normalisation
  // ---------------------------------------------------------------------------

  /**
   * The `restaurantImage` of a normalised record: a value whose `typeof` is
   * "object" is replaced by its `secure_url` (which throws for `null`); any
   * other value passes through.
   */
  function NormalizeImage(image: Value): (r: Result<Value, Failure>)
    ensures r.Err? <==> image.Null?
    ensures r.Err? ==> r.error == TypeError
    ensures TypeOf(image) != "object" ==> r == Ok(image)
    ensures image.Obj? ==> r == Ok(Field(image.fields, "secure_url"))
    ensures image.Arr? ==> r == Ok(Undefined)
  {
    if TypeOf(image) == "object" then
      if image.Arr? then GetNamedKey(image, "secure_url"); Member(image, "secure_url")
      else Member(image, "secure_url")
    else Ok(image)
  }

  /** The canonical identifier `vendor._id || vendor.id`. */
  function CanonicalId(vendor: Value): Value
    requires !Nullish(vendor)
  {
    Or(Get(vendor, "_id"), Get(vendor, "id"))
  }

  /**
   * `normalizeVendor`: the record's own properties, with `id` set to the
   * canonical identifier and `restaurantImage` reduced to a bare value.
   * Reading a property of a `null`/`undefined` record, or the `secure_url` of
   * a `null` image, throws a TypeError.
   */
  function NormalizeVendor(vendor: Value): (r: Result<Value, Failure>)
    ensures r.Err? <==> Nullish(vendor) || Get(vendor, "restaurantImage").Null?
    ensures r.Err? ==> r.error == TypeError
    ensures r.Ok? ==> r.value.Obj?
    ensures r.Ok? ==> r.value.fields.Keys == Spread(vendor).Keys + {"id", "restaurantImage"}
    ensures r.Ok? ==>
      r.value.fields["id"] == (if Truthy(Get(vendor, "_id")) then Get(vendor, "_id") else Get(vendor, "id"))
    ensures r.Ok? ==> NormalizeImage(Get(vendor, "restaurantImage")) == Ok(r.value.fields["restaurantImage"])
    ensures r.Ok? ==> forall k :: k in Spread(vendor) && k != "id" && k != "restaurantImage" ==>
      r.value.fields[k] == Spread(vendor)[k]
  {
    if Nullish(vendor) then Err(TypeError)
    else
      var id := CanonicalId(vendor);
      match NormalizeImage(Get(vendor, "restaurantImage"))
      case Err(e) => Err(e)
      case Ok(image) => Ok(Obj(Spread(vendor)["id" := id]["restaurantImage" := image]))
  }

  /** `normalizeVendors`: `map` over the list, which throws at the first record that throws. */
  function NormalizeVendors(vendors: seq<Value>): (r: Result<seq<Value>, Failure>)
    ensures r.Ok? <==> forall i :: 0 <= i < |vendors| ==> NormalizeVendor(vendors[i]).Ok?
    ensures r.Err? ==> r.error == TypeError
    ensures r.Ok? ==> |r.value| == |vendors|
    ensures r.Ok? ==> forall i :: 0 <= i < |vendors| ==> Ok(r.value[i]) == NormalizeVendor(vendors[i])
  {
    if vendors == [] then Ok([])
    else
      match NormalizeVendor(vendors[0])
      case Err(e) => Err(e)
      case Ok(head) =>
        match NormalizeVendors(vendors[1..])
        case Err(e) => Err(e)
        case Ok(tail) => Ok([head] + tail)
  }

  /** The condition under which normalising twice changes nothing: `secure_url` is not an object. */
  predicate SecureUrlIsBare(vendor: Value)
    requires !Nullish(vendor)
  {
    var image := Get(vendor, "restaurantImage");
    image.Obj? ==> TypeOf(Field(image.fields, "secure_url")) != "object"
  }

  /** A normalised record normalises to itself when its image URL was not an object. */
  lemma NormalizeVendorIdempotent(vendor: Value)
    requires NormalizeVendor(vendor).Ok?
    requires SecureUrlIsBare(vendor)
    ensures NormalizeVendor(NormalizeVendor(vendor).value) == NormalizeVendor(vendor)
  {
    var once := NormalizeVendor(vendor).value;
    var m := once.fields;
    IdSourcesKept(vendor);
    assert CanonicalId(once) == m["id"];
    var image := m["restaurantImage"];
    ImageBareAfterNormalize(vendor);
    assert Get(once, "restaurantImage") == image;
    assert NormalizeImage(image) == Ok(image);
    assert m["id" := m["id"]]["restaurantImage" := image] == m;
  }

  /** Normalising keeps the `_id` that was read and exposes the canonical `id`. */
  lemma IdSourcesKept(vendor: Value)
    requires NormalizeVendor(vendor).Ok?
    ensures var once := NormalizeVendor(vendor).value;
      && Get(once, "_id") == Get(vendor, "_id")
      && Get(once, "id") == CanonicalId(vendor)
  {
    GetNamedKey(vendor, "_id");
  }

  /** After normalising, the image is no longer an object when `secure_url` was not one. */
  lemma ImageBareAfterNormalize(vendor: Value)
    requires NormalizeVendor(vendor).Ok?
    requires SecureUrlIsBare(vendor)
    ensures TypeOf(NormalizeVendor(vendor).value.fields["restaurantImage"]) != "object"
  {
  }

  /** Without that condition idempotence fails: a nested image object is unwrapped once more. */
  lemma NestedImageIsNotIdempotent()
    ensures var vendor := Obj(map["restaurantImage" := Obj(map["secure_url" := Obj(map["secure_url" := Str("u")])])]);
      && NormalizeVendor(vendor).Ok?
      && NormalizeVendor(NormalizeVendor(vendor).value).Ok?
      && NormalizeVendor(NormalizeVendor(vendor).value) != NormalizeVendor(vendor)
  {
    var vendor := Obj(map["restaurantImage" := Obj(map["secure_url" := Obj(map["secure_url" := Str("u")])])]);
    var once := NormalizeVendor(vendor).value;
    assert once.fields["restaurantImage"] == Obj(map["secure_url" := Str("u")]);
    var twice := NormalizeVendor(once).value;
    assert twice.fields["restaurantImage"] == Str("u");
  }

  /** A record whose image is `null` cannot be normalised. */
  lemma NullImageThrows(fields: map<string, Value>)
    requires Field(fields, "restaurantImage") == Null
    ensures NormalizeVendor(Obj(fields)) == Err(TypeError)
  {
  }

  /**
   * The canonical `id` is truthy exactly when one of `_id` and `id` is, and
   * `_id` itself is kept as it was.
   */
  lemma CanonicalIdTruthy(vendor: Value)
    requires NormalizeVendor(vendor).Ok?
    ensures var m := NormalizeVendor(vendor).value.fields;
      && (Truthy(m["id"]) <==> Truthy(Get(vendor, "_id")) || Truthy(Get(vendor, "id")))
      && Field(m, "_id") == Get(vendor, "_id")
  {
  }

  // ---------------------------------------------------------------------------
  // Request shaping: headers, URL, reply outcome
  // ---------------------------------------------------------------------------

  /** `if (token)`: a stored token that is present and non-empty. */
  predicate HasToken(token: Option<string>)
  {
    token.Some? && token.value != ""
  }

  /**
   * The headers of `request`: the JSON `Content-Type` default, overridden by
   * the caller's headers, then `Authorization` set in place when there is a
   * token.
   */
  method MergeHeaders(callerHeaders: map<string, string>, token: Option<string>)
    returns (headers: map<string, string>)
    ensures headers.Keys == callerHeaders.Keys + {"Content-Type"} + (if HasToken(token) then {"Authorization"} else {})
    ensures headers["Content-Type"] ==
      if "Content-Type" in callerHeaders then callerHeaders["Content-Type"] else "application/json"
    ensures HasToken(token) ==> headers["Authorization"] == "Bearer " + token.value
    ensures forall k :: k in callerHeaders && (k != "Authorization" || !HasToken(token)) ==>
      headers[k] == callerHeaders[k]
  {
    headers := map["Content-Type" := "application/json"] + callerHeaders;
    if token.Some? && token.value != "" {
      headers := headers["Authorization" := "Bearer " + token.value];
    }
  }

  const DefaultBaseUrl := "http://localhost:5000"

  /** `API_BASE_URL`: the configured `VITE_API_URL` when it is non-empty, else the local default. */
  function BaseUrl(configured: Option<string>): (r: string)
    ensures configured.Some? && configured.value != "" ==> r == configured.value
    ensures configured.None? || configured.value == "" ==> r == DefaultBaseUrl
    ensures r != ""
  {
    if configured.Some? && configured.value != "" then configured.value else DefaultBaseUrl
  }

  /** The URL `request` fetches: the base URL followed by the endpoint. */
  function RequestUrl(configured: Option<string>, endpoint: string): (r: string)
    ensures |r| == |BaseUrl(configured)| + |endpoint|
    ensures r[..|BaseUrl(configured)|] == BaseUrl(configured)
    ensures r[|BaseUrl(configured)|..] == endpoint
  {
    BaseUrl(configured) + endpoint
  }

  /** The status flag and the parsed JSON body of a reply. */
  datatype HttpReply = HttpReply(ok: bool, body: Value)

  /** The message `request` throws for a failed reply: `data.message || 'Request failed'`. */
  function FailureMessage(data: Value): string
    requires !Nullish(data)
  {
    ToJsString(Or(Get(data, "message"), Str("Request failed")))
  }

  /**
   * What `request` does with a reply: an ok reply resolves to its body
   * unchanged; any other reply throws, with the body's message when that is
   * truthy and 'Request failed' otherwise (reading `message` of a `null` body
   * is itself a TypeError).
   */
  function Settle(reply: HttpReply): (r: Result<Value, Failure>)
    ensures reply.ok <==> r.Ok?
    ensures r.Ok? ==> r.value == reply.body
    ensures !reply.ok && Nullish(reply.body) ==> r == Err(TypeError)
    ensures !reply.ok && !Nullish(reply.body) && Truthy(Get(reply.body, "message")) ==>
      r == Err(Thrown(ToJsString(Get(reply.body, "message"))))
    ensures !reply.ok && !Nullish(reply.body) && !Truthy(Get(reply.body, "message")) ==>
      r == Err(Thrown("Request failed"))
  {
    if reply.ok then Ok(reply.body)
    else
      if Nullish(reply.body) then Err(TypeError) else Err(Thrown(FailureMessage(reply.body)))
  }

  /** A request whose exchange may not complete: `None` when `fetch` or `json()` rejected. */
  function Outcome(reply: Option<HttpReply>): (r: Result<Value, Failure>)
    ensures reply.None? ==> r == Err(NetworkError)
    ensures reply.Some? ==> r == Settle(reply.value)
  {
    match reply
    case None => Err(NetworkError)
    case Some(reply) => Settle(reply)
  }

  /** A failed reply with a non-empty string message throws exactly that message. */
  lemma StringMessageVerbatim(message: string, fields: map<string, Value>)
    requires message != ""
    requires Field(fields, "message") == Str(message)
    ensures Settle(HttpReply(false, Obj(fields))) == Err(Thrown(message))
  {
  }

  // ---------------------------------------------------------------------------
  // Endpoints
  // ---------------------------------------------------------------------------

  const VendorsPath := "/api/admin/vendors"

  /** A query parameter value of `getVendors`: a number or a string. */
  datatype ParamValue = NumberParam(n: int) | StringParam(s: string)

  /** A named parameter; `None` is a parameter given as `undefined`. */
  type Param = (string, Option<ParamValue>)

  /** `value.toString()`. */
  function ParamString(v: ParamValue): string
  {
    match v
    case NumberParam(n) => ToJsString(Num(n))
    case StringParam(s) => ToJsString(Str(s))
  }

  /** The entry one parameter contributes: none when its value is `undefined`. */
  function EntryOf(p: Param): seq<(string, string)>
  {
    if p.1.Some? then [(p.0, ParamString(p.1.value))] else []
  }

  /** The entries appended to the `URLSearchParams`, in the order the parameters were given. */
  function QueryEntries(params: seq<Param>): (r: seq<(string, string)>)
    ensures |r| <= |params|
    decreases |params|
  {
    if params == [] then [] else QueryEntries(params[..|params| - 1]) + EntryOf(params[|params| - 1])
  }

  /** The query of a concatenation is the concatenation of the queries: order is kept. */
  lemma {:induction false} QueryEntriesConcat(a: seq<Param>, b: seq<Param>)
    ensures QueryEntries(a + b) == QueryEntries(a) + QueryEntries(b)
    decreases |b|
  {
    if b == [] {
      assert a + b == a;
    } else {
      var b' := b[..|b| - 1];
      assert (a + b)[..|a + b| - 1] == a + b';
      QueryEntriesConcat(a, b');
    }
  }

  /** An entry is in the query exactly when a parameter with that name has that (defined) value. */
  lemma {:induction false} QueryEntriesMembership(params: seq<Param>, key: string, value: string)
    ensures (key, value) in QueryEntries(params) <==>
      exists j :: 0 <= j < |params| && params[j].0 == key && params[j].1.Some? && ParamString(params[j].1.value) == value
    decreases |params|
  {
    if params != [] {
      var init := params[..|params| - 1];
      QueryEntriesMembership(init, key, value);
      assert forall j :: 0 <= j < |init| ==> init[j] == params[j];
    }
  }

  /** The query is empty exactly when every parameter is `undefined`. */
  lemma {:induction false} QueryEmptyIffAllUndefined(params: seq<Param>)
    ensures QueryEntries(params) == [] <==> forall j :: 0 <= j < |params| ==> params[j].1.None?
    decreases |params|
  {
    if params != [] {
      var init := params[..|params| - 1];
      QueryEmptyIffAllUndefined(init);
      assert forall j :: 0 <= j < |init| ==> init[j] == params[j];
    }
  }

  /** `URLSearchParams.toString()` over an abstract percent-encoder: `k=v` pairs joined by `&`. */
  function SerializeQuery(entries: seq<(string, string)>, encode: string -> string): (r: string)
    ensures r == "" <==> entries == []
  {
    if entries == [] then ""
    else
      var pair := encode(entries[0].0) + "=" + encode(entries[0].1);
      if |entries| == 1 then pair else pair + "&" + SerializeQuery(entries[1..], encode)
  }

  /**
   * The endpoint `getVendors` requests: every parameter whose value is not
   * `undefined` is appended in order, and `?` plus the query follows the path
   * only when the query string is non-empty.
   */
  method VendorsEndpoint(params: Option<seq<Param>>, encode: string -> string) returns (endpoint: string)
    ensures var entries := if params.Some? then QueryEntries(params.value) else [];
      && (entries == [] ==> endpoint == VendorsPath)
      && (entries != [] ==> endpoint == VendorsPath + "?" + SerializeQuery(entries, encode))
  {
    var query: seq<(string, string)> := [];
    if params.Some? {
      var ps := params.value;
      var i := 0;
      while i < |ps|
        invariant 0 <= i <= |ps|
        invariant query == QueryEntries(ps[..i])
      {
        assert ps[..i + 1][..i] == ps[..i];
        var (key, value) := ps[i];
        if value.Some? {
          query := query + [(key, ParamString(value.value))];
        }
        i := i + 1;
      }
      assert ps[..i] == ps;
    }
    var queryString := SerializeQuery(query, encode);
    endpoint := VendorsPath + (if queryString != "" then "?" + queryString else "");
  }

  /** `getVendorById` and `updateVendor`: the vendor path followed by the identifier. */
  function VendorPath(id: string): (r: string)
    ensures |r| == |VendorsPath| + 1 + |id|
    ensures r[..|VendorsPath| + 1] == VendorsPath + "/" && r[|VendorsPath| + 1..] == id
  {
    VendorsPath + "/" + id
  }

  /** `getVendorsByAgent`: the agent identifier is inserted without encoding. */
  function VendorsByAgentPath(agentId: string): (r: string)
    ensures |r| == |VendorsPath| + 9 + |agentId|
    ensures r[..|VendorsPath| + 9] == VendorsPath + "?agentId=" && r[|VendorsPath| + 9..] == agentId
  {
    VendorsPath + "?agentId=" + agentId
  }

  const AgentsPath := "/api/agents"

  /** `updateAgent` and `deleteAgent`: the agents path followed by the identifier. */
  function AgentPath(id: string): (r: string)
    ensures |r| == |AgentsPath| + 1 + |id|
    ensures r[..|AgentsPath| + 1] == AgentsPath + "/" && r[|AgentsPath| + 1..] == id
  {
    AgentsPath + "/" + id
  }

  /** Distinct identifiers address distinct vendor and agent resources. */
  lemma PathsInjective(a: string, b: string)
    ensures VendorPath(a) == VendorPath(b) ==> a == b
    ensures VendorsByAgentPath(a) == VendorsByAgentPath(b) ==> a == b
    ensures AgentPath(a) == AgentPath(b) ==> a == b
  {
  }
}
