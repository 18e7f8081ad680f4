/** `SpreeMydhl::DhlExpressClient`, the newer rating client: it authenticates
    with an API key and secret, lets the caller fix the customs flag and
    the DHL product, drops blank query parameters, asks for the next
    business day, and sends its own User-Agent. */
module MydhlClient {
  import opened RubyText
  import opened Calendar
  import opened Encoding
  import opened DhlApi

  /** The keyword arguments of `initialize`, with its defaults. */
  datatype Client = Client(
    apiKey: Option<string>,
    apiSecret: Option<string>,
    accountNumber: Option<string>,
    originCountryCode: Option<string>,
    originPostalCode: Option<string>,
    originCityName: Option<string>,
    destinationCountryCode: Option<string>,
    destinationPostalCode: Option<string>,
    destinationCityName: Option<string>,
    weight: real,
    length: real,
    width: real,
    height: real,
    nameonly unitOfMeasurement: Option<string> := Some("metric"),
    nameonly currency: Option<string> := Some("USD"),
    nameonly sandbox: bool := false,
    nameonly productCode: Option<string> := None,
    nameonly customsDeclarable: Option<bool> := None)

  /** `customs_declarable?`: the caller's setting when it is not nil,
      otherwise whether the upcased country codes differ (`upcase` on a nil
      code raises). */
  function CustomsDeclarable(c: Client): (r: Result<bool>)
    ensures c.customsDeclarable.Some? ==> r == Ok(c.customsDeclarable.value)
    ensures c.customsDeclarable.None? ==>
      (r.Ok? <==> c.originCountryCode.Some? && c.destinationCountryCode.Some?)
    ensures c.customsDeclarable.None? && r.Ok? ==>
      r.value == !EqualIgnoringCase(c.originCountryCode.value, c.destinationCountryCode.value)
  {
    if c.customsDeclarable.Some? then Ok(c.customsDeclarable.value)
    else if c.originCountryCode.None? || c.destinationCountryCode.None? then Raised
    else
      UpcaseEqualIff(c.originCountryCode.value, c.destinationCountryCode.value);
      Ok(Upcase(c.originCountryCode.value) != Upcase(c.destinationCountryCode.value))
  }

  /** `planned_shipping_date`: today, as `Date#iso8601`, which reads back
      as today. */
  function PlannedShippingDate(today: int): (s: string)
    ensures ParseIso8601(s) == Some(today)
  {
    Iso8601RoundTrip(today);
    Iso8601(today)
  }

  /** `query_params`, given what `planned_shipping_date` returned. The query
      names every parameter in order and fails only when the customs flag
      has to be computed from a missing country code. */
  function QueryParams(c: Client, shippingDate: string): (r: Result<seq<(string, Value)>>)
    ensures r.Ok? <==>
      c.customsDeclarable.Some? || (c.originCountryCode.Some? && c.destinationCountryCode.Some?)
    ensures r.Ok? ==> Keys(r.value) == QueryKeys
  {
    match CustomsDeclarable(c)
    case Raised => Raised
    case Ok(customs) =>
      Ok(Named([
        FromOption(c.accountNumber),
        FromOption(c.originCountryCode),
        FromOption(c.originPostalCode),
        FromOption(c.originCityName),
        FromOption(c.destinationCountryCode),
        FromOption(c.destinationPostalCode),
        FromOption(c.destinationCityName),
        Rounded(c.weight, 3),
        Rounded(c.length, 2),
        Rounded(c.width, 2),
        Rounded(c.height, 2),
        Str(shippingDate),
        FromOption(c.unitOfMeasurement),
        Flag(customs),
        Flag(true),
        FromOption(c.currency)]))
  }

  /** The account number and the origin are put in as given. */
  lemma QueryParamsValues(c: Client, shippingDate: string)
    requires CustomsDeclarable(c).Ok?
    ensures QueryParams(c, shippingDate).Ok?
    ensures var q := QueryParams(c, shippingDate).value;
      && |q| == 16
      && q[0].1 == FromOption(c.accountNumber)
      && q[1].1 == FromOption(c.originCountryCode)
      && q[2].1 == FromOption(c.originPostalCode)
      && q[3].1 == FromOption(c.originCityName)
  {
  }

  /** The destination country, postal code and city are put in as given. */
  lemma QueryParamsDestination(c: Client, shippingDate: string)
    requires CustomsDeclarable(c).Ok?
    ensures QueryParams(c, shippingDate).Ok?
    ensures var q := QueryParams(c, shippingDate).value;
      && |q| == 16
      && q[4].1 == FromOption(c.destinationCountryCode)
      && q[5].1 == FromOption(c.destinationPostalCode)
      && q[6].1 == FromOption(c.destinationCityName)
  {
  }

  /** The weight is put in rounded to three places and the dimensions to
      two, the shipping date is the one given, the customs flag is
      `customs_declarable?`, the next business day is requested, and the
      unit and currency are as given. */
  lemma QueryParamsDerived(c: Client, shippingDate: string)
    requires CustomsDeclarable(c).Ok?
    ensures QueryParams(c, shippingDate).Ok?
    ensures var q := QueryParams(c, shippingDate).value;
      && |q| == 16
      && q[7].1 == Rounded(c.weight, 3)
      && q[8].1 == Rounded(c.length, 2)
      && q[9].1 == Rounded(c.width, 2)
      && q[10].1 == Rounded(c.height, 2)
      && q[11].1 == Str(shippingDate)
      && q[13].1 == Flag(CustomsDeclarable(c).value)
      && q[14].1 == Flag(true)
      && q[12].1 == FromOption(c.unitOfMeasurement)
      && q[15].1 == FromOption(c.currency)
  {
  }

  /** `reject { |_, v| v.to_s.strip.empty? }`: the parameters whose text is
      not empty once stripped, in their order. */
  function DropBlank(q: seq<(string, Value)>): (r: seq<(string, Value)>)
    ensures |r| <= |q|
    ensures forall kv :: kv in r <==> kv in q && !StripsToEmpty(ValueToS(kv.1))
    decreases |q|
  {
    if |q| == 0 then []
    else
      var rest := DropBlank(q[1..]);
      assert forall kv :: kv in q <==> kv == q[0] || kv in q[1..];
      if StripsToEmpty(ValueToS(q[0].1)) then rest else [q[0]] + rest
  }

  /** With nothing blank, nothing is dropped. */
  lemma {:induction false} DropBlankKeepsAll(q: seq<(string, Value)>)
    requires forall i :: 0 <= i < |q| ==> !StripsToEmpty(ValueToS(q[i].1))
    ensures DropBlank(q) == q
    decreases |q|
  {
    if |q| > 0 {
      DropBlankKeepsAll(q[1..]);
    }
  }

  /** Numbers and booleans always stay, `false` included. */
  lemma DropBlankKeepsNumbersAndFlags(q: seq<(string, Value)>, i: nat)
    requires i < |q| && (q[i].1.Num? || q[i].1.Flag?)
    ensures q[i] in DropBlank(q)
  {
    OnlyTextIsBlank(q[i].1);
  }

  /** A parameter whose value is blank, and whose name no other parameter
      has, leaves no entry under its name. */
  lemma DropBlankRemovesName(q: seq<(string, Value)>, i: nat)
    requires i < |q| && StripsToEmpty(ValueToS(q[i].1))
    requires forall j :: 0 <= j < |q| && j != i ==> q[j].0 != q[i].0
    ensures forall kv :: kv in DropBlank(q) ==> kv.0 != q[i].0
  {
    forall kv | kv in DropBlank(q) ensures kv.0 != q[i].0 {
      var j :| 0 <= j < |q| && q[j] == kv;
    }
  }

  /** Without an account number (nil or blank), the query sent carries no
      `accountNumber` parameter at all. */
  lemma BlankAccountNotSent(c: Client, shippingDate: string)
    requires QueryParams(c, shippingDate).Ok?
    requires StripsToEmpty(ToS(c.accountNumber))
    ensures forall kv :: kv in DropBlank(QueryParams(c, shippingDate).value) ==> kv.0 != "accountNumber"
  {
    var q := QueryParams(c, shippingDate).value;
    QueryParamsValues(c, shippingDate);
    AccountNumberKey();
    assert forall j :: 0 <= j < |q| ==> q[j].0 == QueryKeys[j];
    DropBlankRemovesName(q, 0);
  }

  /** The customs flag, `false` included, and the next-business-day flag are
      always sent, as are the rounded weight and dimensions. */
  lemma FlagsAndMeasuresSent(c: Client, shippingDate: string)
    requires QueryParams(c, shippingDate).Ok?
    ensures var sent := DropBlank(QueryParams(c, shippingDate).value);
      && ("isCustomsDeclarable", Flag(CustomsDeclarable(c).value)) in sent
      && ("nextBusinessDay", Flag(true)) in sent
      && ("weight", Rounded(c.weight, 3)) in sent
      && ("length", Rounded(c.length, 2)) in sent
      && ("width", Rounded(c.width, 2)) in sent
      && ("height", Rounded(c.height, 2)) in sent
  {
    var q := QueryParams(c, shippingDate).value;
    QueryParamsDerived(c, shippingDate);
    assert q[7].0 == "weight" && q[13].0 == "isCustomsDeclarable" && q[14].0 == "nextBusinessDay";
    assert q[8].0 == "length" && q[9].0 == "width" && q[10].0 == "height";
    DropBlankKeepsNumbersAndFlags(q, 7);
    DropBlankKeepsNumbersAndFlags(q, 8);
    DropBlankKeepsNumbersAndFlags(q, 9);
    DropBlankKeepsNumbersAndFlags(q, 10);
    DropBlankKeepsNumbersAndFlags(q, 13);
    DropBlankKeepsNumbersAndFlags(q, 14);
  }

  /** `build_uri` and `build_request`: the endpoint, the non-blank query,
      HTTP Basic authentication with `"#{@api_key}:#{@api_secret}"`, JSON,
      and `"spree_mydhl/#{VERSION}"` as User-Agent. */
  function BuildRequest(c: Client, today: int, version: string): (r: Result<Request>)
    ensures r.Ok? <==> QueryParams(c, PlannedShippingDate(today)).Ok?
    ensures r.Ok? ==> r.value.query == DropBlank(QueryParams(c, PlannedShippingDate(today)).value)
  {
    match QueryParams(c, PlannedShippingDate(today))
    case Raised => Raised
    case Ok(q) =>
      Ok(Request(RatesUrl(c.sandbox), DropBlank(q), [
        ("Authorization", BasicAuthorization(ToS(c.apiKey), ToS(c.apiSecret))),
        ("Accept", "application/json"),
        ("User-Agent", "spree_mydhl/" + version)]))
  }

  /** The request goes to the sandbox or the production endpoint, its
      Authorization header gives the server back the key and secret (when
      the key has no colon), and it names the gem's version. */
  lemma BuildRequestSpec(c: Client, today: int, version: string)
    requires BuildRequest(c, today, version).Ok?
    requires ':' !in ToS(c.apiKey)
    ensures var req := BuildRequest(c, today, version).value;
      && req.url == (if c.sandbox then "https://express.api.dhl.com/mydhlapi/test/rates"
                     else "https://express.api.dhl.com/mydhlapi/rates")
      && |req.headers| == 3 && req.headers[0].0 == "Authorization"
      && BasicCredentials(req.headers[0].1) == Some((ToS(c.apiKey), ToS(c.apiSecret)))
      && req.headers[1] == ("Accept", "application/json")
      && req.headers[2] == ("User-Agent", "spree_mydhl/" + version)
  {
    RatesUrls();
    BasicCredentialsRoundTrip(ToS(c.apiKey), ToS(c.apiSecret));
  }

  /** `products.select { |p| p['productCode'] == @product_code }`. */
  function Select(ps: seq<Product>, code: string): (r: seq<Product>)
    ensures |r| <= |ps|
    ensures forall p :: p in r <==> p in ps && p.productCode == Some(code)
    decreases |ps|
  {
    if |ps| == 0 then []
    else
      var rest := Select(ps[1..], code);
      assert forall p :: p in ps <==> p == ps[0] || p in ps[1..];
      if ps[0].productCode == Some(code) then [ps[0]] + rest else rest
  }

  /** What `cheapest_rate` makes of the data `fetch_rates` returned: with a
      product code present, only the products of that code are priced. It
      raises exactly on a JSON value that is not an object, and a rate only
      comes from an object's products. */
  function RateFrom(productCode: Option<string>, data: Option<Document>): (r: Result<Option<real>>)
    ensures r.Raised? <==> data == Some(NotObject)
    ensures r.Ok? && r.value.Some? ==>
      data.Some? && data.value.Object? && data.value.products.Some? &&
      exists i :: 0 <= i < |data.value.products.value| && BilledPrice(data.value.products.value[i]) == r.value
  {
    match ProductsOf(data)
    case Raised => Raised
    case Ok(None) => Ok(None)
    case Ok(Some(ps)) =>
      if !Blank(productCode) then
        var selected := Select(ps, productCode.value);
        if |selected| == 0 then Ok(None) else Ok(Cheapest(selected))
      else Ok(Cheapest(ps))
  }

  /** `cheapest_rate`, with the network as `respond` and the gem's version
      as `version`. An error while building the request is rescued inside
      `fetch_rates`, so it is nil. */
  function CheapestRate(c: Client, today: int, version: string, respond: Request -> Transport): Result<Option<real>> {
    match BuildRequest(c, today, version)
    case Raised => Ok(None)
    case Ok(req) => RateFrom(c.productCode, FetchOutcome(respond(req)))
  }

  /** A non-2xx status, a body that is not JSON, or a failed connection
      gives nil, as does an error while building the request. */
  lemma FailureGivesNil(c: Client, today: int, version: string, respond: Request -> Transport)
    requires BuildRequest(c, today, version).Ok? ==>
      var t := respond(BuildRequest(c, today, version).value);
      t.Failed? || !IsSuccess(t.status) || t.body.Unparseable?
    ensures CheapestRate(c, today, version, respond) == Ok(None)
  {
  }

  /** No data, a JSON null, or an object without `products` gives nil,
      whatever the product code. */
  lemma NoProductsGivesNil(productCode: Option<string>)
    ensures RateFrom(productCode, None) == Ok(None)
    ensures RateFrom(productCode, Some(Null)) == Ok(None)
    ensures RateFrom(productCode, Some(Object(None))) == Ok(None)
    ensures RateFrom(productCode, Some(Object(Some([])))) == Ok(None)
  {
  }

  /** The products a rate may come from: those of the requested code when a
      code is present, all of them otherwise. */
  predicate Eligible(productCode: Option<string>, p: Product) {
    Blank(productCode) || p.productCode == productCode
  }

  /** The products `cheapest_rate` prices: those of the requested code when
      a code is present, all of them otherwise. */
  function Chosen(productCode: Option<string>, ps: seq<Product>): (r: seq<Product>)
    ensures forall p :: p in r <==> p in ps && Eligible(productCode, p)
  {
    if !Blank(productCode) then Select(ps, productCode.value) else ps
  }

  /** The rate of an object's products is `Cheapest` of the chosen ones. */
  lemma RateFromChosen(productCode: Option<string>, ps: seq<Product>)
    ensures RateFrom(productCode, Some(Object(Some(ps)))) == Ok(Cheapest(Chosen(productCode, ps)))
  {
    var chosen := Chosen(productCode, ps);
    if |chosen| == 0 {
      assert Cheapest(chosen) == None;
    }
  }

  /** `Cheapest` stated over the members of the list. */
  lemma CheapestMembers(ps: seq<Product>)
    ensures var r := Cheapest(ps);
      && (r.Some? ==> exists p :: p in ps && BilledPrice(p) == r)
      && (forall p :: p in ps && BilledPrice(p).Some? ==> r.Some? && r.value <= BilledPrice(p).value)
      && (r.None? <==> forall p :: p in ps ==> BilledPrice(p).None?)
  {
    var r := Cheapest(ps);
    forall p | p in ps && BilledPrice(p).Some?
      ensures r.Some? && r.value <= BilledPrice(p).value
    {
      var i :| 0 <= i < |ps| && ps[i] == p;
    }
    if r.Some? {
      var i :| 0 <= i < |ps| && BilledPrice(ps[i]) == r;
      assert ps[i] in ps;
    }
  }

  /** The rate is the least price some eligible product is billed at, and nil
      exactly when no eligible product has one. */
  lemma RateFromSpec(productCode: Option<string>, ps: seq<Product>)
    ensures RateFrom(productCode, Some(Object(Some(ps)))).Ok?
    ensures var r := RateFrom(productCode, Some(Object(Some(ps)))).value;
      && (r.Some? ==> exists p :: p in ps && Eligible(productCode, p) && BilledPrice(p) == r)
      && (forall p :: p in ps && Eligible(productCode, p) && BilledPrice(p).Some? ==>
            r.Some? && r.value <= BilledPrice(p).value)
      && (r.None? <==> forall p :: p in ps && Eligible(productCode, p) ==> BilledPrice(p).None?)
  {
    var chosen := Chosen(productCode, ps);
    RateFromChosen(productCode, ps);
    CheapestMembers(chosen);
  }

  /** The products of the multi-product response with product code "D"
      requested: only the BILLC 38.50 of product D counts. */
  lemma ProductCodeExample()
    ensures RateFrom(Some("D"), Some(Object(Some([
      Product(Some("P"), Some([PriceEntry(Some("BILLC"), Some(30.0))])),
      Product(Some("D"), Some([PriceEntry(Some("BILLC"), Some(38.5))]))]))))
      == Ok(Some(38.5))
  {
    var p := Product(Some("P"), Some([PriceEntry(Some("BILLC"), Some(30.0))]));
    var d := Product(Some("D"), Some([PriceEntry(Some("BILLC"), Some(38.5))]));
    assert "P" != "D";
    assert Select([p, d], "D") == [d] by {
      assert [p, d][1..] == [d];
      assert [d][1..] == [];
    }
    assert BilledPrice(d) == Some(38.5);
  }
}
