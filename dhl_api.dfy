/** What both generations of the DHL Express rating client share: the two
    base URLs, the shape of a rating request, the outcome of sending it, the
    parsed rating response, and the reduction of that response to the
    cheapest billed price (`cheapest_rate`). The network is a `Carrier`:
    whatever answers a request, with a log of the requests it was sent. */
module DhlApi {
  import opened RubyText
  import opened Decimal

  /** A Ruby call that either returns a value or raises. */
  datatype Result<T> = Ok(value: T) | Raised

  const ProductionBaseUrl := "https://express.api.dhl.com/mydhlapi"
  const SandboxBaseUrl := "https://express.api.dhl.com/mydhlapi/test"

  /** `URI("#{base_url}/rates")`, the base URL chosen by the sandbox flag. */
  function RatesUrl(sandbox: bool): string {
    (if sandbox then SandboxBaseUrl else ProductionBaseUrl) + "/rates"
  }

  /** The two endpoints, written out, and distinct. */
  lemma RatesUrls()
    ensures RatesUrl(true) == "https://express.api.dhl.com/mydhlapi/test/rates"
    ensures RatesUrl(false) == "https://express.api.dhl.com/mydhlapi/rates"
    ensures RatesUrl(true) != RatesUrl(false)
  {
    assert RatesUrl(true)[37] == 't' && RatesUrl(false)[37] == 'r';
  }

  type Places = p: nat | p >= 1 witness 1

  /** A query parameter value before `URI.encode_www_form` turns it into
      text: nil, a String, a Float rounded to `places` decimals (kept as
      a count of 10^-places units) or a boolean. */
  datatype Value = Nil | Str(s: string) | Num(units: int, places: Places) | Flag(b: bool)

  /** `v.to_s`. */
  function ValueToS(v: Value): string {
    match v
    case Nil => ""
    case Str(s) => s
    case Num(u, p) => Render(u, p)
    case Flag(b) => if b then "true" else "false"
  }

  /** A String-or-nil instance variable as a query value. */
  function FromOption(s: Option<string>): (v: Value)
    ensures ValueToS(v) == ToS(s)
  {
    match s
    case None => Nil
    case Some(t) => Str(t)
  }

  /** Only nil and a String can be blank once turned into text: a number
      starts with a digit or a minus sign, a boolean with 't' or 'f'. */
  lemma OnlyTextIsBlank(v: Value)
    ensures StripsToEmpty(ValueToS(v)) ==> v.Nil? || (v.Str? && StripsToEmpty(v.s))
  {
    if v.Num? || v.Flag? {
      assert !IsStripSpace(ValueToS(v)[0]);
    }
  }

  /** `x.round(places)` as a query value. */
  function Rounded(x: real, places: Places): (v: Value)
    ensures v.Num? && v.places == places
  {
    Num(RoundUnits(x, places), places)
  }

  /** The query parameter names both clients send, in the order of their
      `query_params` hash. */
  const QueryKeys: seq<string> := [
    "accountNumber", "originCountryCode", "originPostalCode", "originCityName",
    "destinationCountryCode", "destinationPostalCode", "destinationCityName",
    "weight", "length", "width", "height", "plannedShippingDate",
    "unitOfMeasurement", "isCustomsDeclarable", "nextBusinessDay", "requestedCurrencyCode"]

  /** The parameters of `QueryKeys` with their values, in order, as the
      `query_params` hash literal builds them. */
  function Named(values: seq<Value>): (q: seq<(string, Value)>)
    requires |values| == |QueryKeys|
    ensures |q| == |QueryKeys|
    ensures forall i :: 0 <= i < |q| ==> q[i] == (QueryKeys[i], values[i])
  {
    seq(|values|, i requires 0 <= i < |values| => (QueryKeys[i], values[i]))
  }

  /** The names of a list of parameters, in order. */
  function Keys(q: seq<(string, Value)>): (ks: seq<string>)
    ensures |ks| == |q| && forall i :: 0 <= i < |q| ==> ks[i] == q[i].0
  {
    seq(|q|, i requires 0 <= i < |q| => q[i].0)
  }

  /** The value of the first parameter named `key`, as `Hash#[]` reads it. */
  function Lookup(q: seq<(string, Value)>, key: string): (v: Option<Value>)
    ensures v.Some? ==> (key, v.value) in q
    ensures v.None? ==> forall i :: 0 <= i < |q| ==> q[i].0 != key
    decreases |q|
  {
    if |q| == 0 then None
    else if q[0].0 == key then Some(q[0].1)
    else Lookup(q[1..], key)
  }

  /** Two parameter names that differ in their first letter or length differ. */
  lemma QueryKeysDistinct()
    ensures forall i, j :: 0 <= i < j < |QueryKeys| ==> QueryKeys[i] != QueryKeys[j]
  {
    forall i, j | 0 <= i < j < |QueryKeys|
      ensures QueryKeys[i] != QueryKeys[j]
    {
      assert QueryKeys[i][0] != QueryKeys[j][0] || |QueryKeys[i]| != |QueryKeys[j]|;
    }
  }

  /** `accountNumber` comes first and only once. */
  lemma AccountNumberKey()
    ensures QueryKeys[0] == "accountNumber"
    ensures forall j :: 1 <= j < |QueryKeys| ==> QueryKeys[j] != "accountNumber"
  {
    forall j | 1 <= j < |QueryKeys| ensures QueryKeys[j] != "accountNumber" {
      assert QueryKeys[j][0] != 'a';
    }
  }

  /** In a query that names the parameters of `QueryKeys`, each parameter is
      found by its name. */
  lemma LookupQuery(q: seq<(string, Value)>, i: nat)
    requires Keys(q) == QueryKeys
    requires i < |q|
    ensures Lookup(q, QueryKeys[i]) == Some(q[i].1)
  {
    QueryKeysDistinct();
    LookupAt(q, i);
  }

  /** A parameter whose name no earlier parameter has is what `Lookup` finds. */
  lemma {:induction false} LookupAt(q: seq<(string, Value)>, i: nat)
    requires i < |q|
    requires forall j :: 0 <= j < i ==> q[j].0 != q[i].0
    ensures Lookup(q, q[i].0) == Some(q[i].1)
    decreases i
  {
    if i > 0 {
      LookupAt(q[1..], i - 1);
    }
  }

  /** A GET request: the URL before its query, the query parameters in
      order, and the headers in order. */
  datatype Request = Request(url: string, query: seq<(string, Value)>, headers: seq<(string, string)>)

  /** One entry of a product's `totalPrice` array. `price` is None when the
      entry has no price. */
  datatype PriceEntry = PriceEntry(currencyType: Option<string>, price: Option<real>)

  /** One element of `products`; `totalPrice` is None when it is missing or
      is not an array. */
  datatype Product = Product(productCode: Option<string>, totalPrice: Option<seq<PriceEntry>>)

  /** The result of `JSON.parse(response.body)`: JSON null, an object (of
      which only `products` matters; None when it is missing or null) or any
      other JSON value. */
  datatype Document = Null | Object(products: Option<seq<Product>>) | NotObject

  datatype Body = Unparseable | Parsed(doc: Document)

  /** What `Net::HTTP.start { http.request(request) }` gives: a response with
      its status and body, or a raised error (connection refused, timeout,
      TLS failure). */
  datatype Transport = Responded(status: int, body: Body) | Failed

  /** `Net::HTTPSuccess`: a 2xx status. */
  predicate IsSuccess(status: int) {
    200 <= status <= 299
  }

  /** The tail of `fetch_rates` once the request is built: a non-2xx status
      raises `ApiError`, a body that is not JSON raises a parse error, and
      both are rescued to nil (None). Only a 2xx response with a JSON body
      yields data, and the data is that body. */
  function FetchOutcome(t: Transport): (r: Option<Document>)
    ensures r.Some? <==> t.Responded? && IsSuccess(t.status) && t.body.Parsed?
    ensures r.Some? ==> r.value == t.body.doc
  {
    match t
    case Failed => None
    case Responded(status, body) =>
      if !IsSuccess(status) then None
      else
        match body
        case Unparseable => None
        case Parsed(doc) => Some(doc)
  }

  /** The first lines of `cheapest_rate`: nil data, a missing or empty
      `products` give nil; indexing a JSON value that is not an object
      raises; otherwise the non-empty product list. */
  function ProductsOf(data: Option<Document>): (r: Result<Option<seq<Product>>>)
    ensures r.Ok? && r.value.Some? ==> |r.value.value| > 0
  {
    match data
    case None => Ok(None)
    case Some(Null) => Ok(None)
    case Some(NotObject) => Raised
    case Some(Object(products)) =>
      if products.None? || |products.value| == 0 then Ok(None) else Ok(products)
  }

  predicate IsBilled(e: PriceEntry) {
    e.currencyType == Some("BILLC")
  }

  /** `total_prices.find { |p| p['currencyType'] == 'BILLC' }`, as an index. */
  function FindBilled(es: seq<PriceEntry>): (r: Option<nat>)
    ensures r.Some? ==> r.value < |es| && IsBilled(es[r.value])
    ensures r.Some? ==> forall j :: 0 <= j < r.value ==> !IsBilled(es[j])
    ensures r.None? ==> forall j :: 0 <= j < |es| ==> !IsBilled(es[j])
    decreases |es|
  {
    if |es| == 0 then None
    else if IsBilled(es[0]) then Some(0)
    else
      match FindBilled(es[1..])
      case None => None
      case Some(i) => Some(i + 1)
  }

  /** What one product contributes: the price of its first BILLC entry,
      nothing when `totalPrice` is not an array, has no BILLC entry, or
      that entry has no price. */
  function BilledPrice(p: Product): (r: Option<real>)
    ensures p.totalPrice.None? ==> r.None?
    ensures p.totalPrice.Some? && |p.totalPrice.value| > 0 && IsBilled(p.totalPrice.value[0]) ==>
      r == p.totalPrice.value[0].price
    ensures p.totalPrice.Some? ==>
      forall i ::
        (0 <= i < |p.totalPrice.value| && IsBilled(p.totalPrice.value[i]) &&
         forall j :: 0 <= j < i ==> !IsBilled(p.totalPrice.value[j]))
        ==> r == p.totalPrice.value[i].price
    ensures r.Some? ==>
      exists i :: 0 <= i < |p.totalPrice.value| && IsBilled(p.totalPrice.value[i]) && p.totalPrice.value[i].price == r
    ensures p.totalPrice.Some? && (forall i :: 0 <= i < |p.totalPrice.value| ==> !IsBilled(p.totalPrice.value[i])) ==>
      r.None?
  {
    match p.totalPrice
    case None => None
    case Some(es) =>
      match FindBilled(es)
      case None => None
      case Some(i) => es[i].price
  }

  /** The `filter_map` over the products: the contributed prices, in order. */
  function Prices(ps: seq<Product>): (r: seq<real>)
    ensures |r| <= |ps|
    ensures forall x :: x in r <==> exists i :: 0 <= i < |ps| && BilledPrice(ps[i]) == Some(x)
    decreases |ps|
  {
    if |ps| == 0 then []
    else
      var rest := Prices(ps[1..]);
      assert forall i :: 1 <= i < |ps| ==> ps[i] == ps[1..][i - 1];
      match BilledPrice(ps[0])
      case None => rest
      case Some(x) => [x] + rest
  }

  /** `Array#min`: nil for an empty array. */
  function Minimum(s: seq<real>): (m: Option<real>)
    ensures m.None? <==> |s| == 0
    ensures m.Some? ==> m.value in s && forall x :: x in s ==> m.value <= x
    decreases |s|
  {
    if |s| == 0 then None
    else
      match Minimum(s[1..])
      case None =>
        assert s == [s[0]];
        Some(s[0])
      case Some(t) =>
        assert forall x :: x in s ==> x == s[0] || x in s[1..];
        Some(if s[0] <= t then s[0] else t)
  }

  /** `prices.empty? ? nil : prices.min`: the least contributed price; nil
      exactly when no product contributes one. */
  function Cheapest(ps: seq<Product>): (r: Option<real>)
    ensures r.Some? ==> exists i :: 0 <= i < |ps| && BilledPrice(ps[i]) == r
    ensures forall i :: 0 <= i < |ps| && BilledPrice(ps[i]).Some? ==>
      r.Some? && r.value <= BilledPrice(ps[i]).value
    ensures r.None? <==> forall i :: 0 <= i < |ps| ==> BilledPrice(ps[i]).None?
  {
    var prices := Prices(ps);
    var r := Minimum(prices);
    assert forall i :: 0 <= i < |ps| && BilledPrice(ps[i]).Some? ==> BilledPrice(ps[i]).value in prices;
    r
  }

  /** The network. `respond` is whatever the DHL API (or the failure of
      reaching it) answers to a request; `sent` logs every request made. */
  class Carrier {
    const respond: Request -> Transport
    var sent: seq<Request>

    constructor(respond: Request -> Transport)
      ensures this.respond == respond && sent == []
    {
      this.respond := respond;
      sent := [];
    }

    /** `Net::HTTP.start(...) { |http| http.request(request) }`. */
    method Send(request: Request) returns (t: Transport)
      modifies this
      ensures t == respond(request)
      ensures sent == old(sent) + [request]
    {
      sent := sent + [request];
      t := respond(request);
    }
  }
}
