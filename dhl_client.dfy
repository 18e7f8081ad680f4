/** `SpreeDhl::DhlExpressClient`, the older rating client: it authenticates
    with a username and password, always derives the customs flag from the
    two country codes, sends every query parameter, asks for no next
    business day, and moves a weekend shipping date to the Monday. */
module DhlClient {
  import opened RubyText
  import opened Decimal
  import opened Calendar
  import opened Encoding
  import opened DhlApi

  /** The keyword arguments of `initialize`, with its defaults. */
  datatype Client = Client(
    username: Option<string>,
    password: Option<string>,
    accountNumber: Option<string>,
    originCountryCode: Option<string>,
    originPostalCode: Option<string>,
    originCityName: Option<string>,
    destinationCountryCode: Option<string>,
    destinationPostalCode: Option<string>,
    destinationCityName: Option<string>,
    weight: real,
    length: real,
    width: real,
    height: real,
    nameonly unitOfMeasurement: Option<string> := Some("metric"),
    nameonly currency: Option<string> := Some("USD"),
    nameonly sandbox: bool := false)

  /** `planned_shipping_date` before formatting: a Saturday moves two days on,
      a Sunday one; so the result is the first weekday on or after `today`. */
  function PlannedShippingDay(today: int): (d: int)
    ensures today <= d <= today + 2
    ensures IsWeekday(d)
    ensures forall k :: today <= k < d ==> !IsWeekday(k)
    ensures IsWeekday(today) ==> d == today
  {
    var date := if IsSaturday(today) then today + 2 else today;
    var d := if IsSunday(date) then date + 1 else date;
    assert Wday(today + 1) == (Wday(today) + 1) % 7;
    assert Wday(today + 2) == (Wday(today) + 2) % 7;
    d
  }

  /** `planned_shipping_date`: that day as `Date#iso8601`, which reads back
      as that day. */
  function PlannedShippingDate(today: int): (s: string)
    ensures ParseIso8601(s) == Some(PlannedShippingDay(today))
  {
    Iso8601RoundTrip(PlannedShippingDay(today));
    Iso8601(PlannedShippingDay(today))
  }

  /** `query_params`, given what `planned_shipping_date` returned; `upcase`
      on a nil country code raises. The query holds every parameter,
      unfiltered and in order, and can only fail on a missing country code. */
  function QueryParams(c: Client, shippingDate: string): (r: Result<seq<(string, Value)>>)
    ensures r.Ok? <==> c.originCountryCode.Some? && c.destinationCountryCode.Some?
    ensures r.Ok? ==> Keys(r.value) == QueryKeys
  {
    if c.originCountryCode.None? || c.destinationCountryCode.None? then Raised
    else
      var customs := Upcase(c.originCountryCode.value) != Upcase(c.destinationCountryCode.value);
      Ok(Named([
        FromOption(c.accountNumber),
        FromOption(c.originCountryCode),
        FromOption(c.originPostalCode),
        FromOption(c.originCityName),
        FromOption(c.destinationCountryCode),
        FromOption(c.destinationPostalCode),
        FromOption(c.destinationCityName),
        Rounded(c.weight, 3),
        Rounded(c.length, 2),
        Rounded(c.width, 2),
        Rounded(c.height, 2),
        Str(shippingDate),
        FromOption(c.unitOfMeasurement),
        Flag(customs),
        Flag(false),
        FromOption(c.currency)]))
  }

  /** The account number, origin, destination, unit and currency are sent
      as given. */
  lemma QueryParamsValues(c: Client, shippingDate: string)
    requires c.originCountryCode.Some? && c.destinationCountryCode.Some?
    ensures QueryParams(c, shippingDate).Ok?
    ensures var q := QueryParams(c, shippingDate).value;
      && |q| == 16
      && q[0].1 == FromOption(c.accountNumber)
      && q[1].1 == FromOption(c.originCountryCode)
      && q[2].1 == FromOption(c.originPostalCode)
      && q[3].1 == FromOption(c.originCityName)
      && q[4].1 == FromOption(c.destinationCountryCode)
      && q[5].1 == FromOption(c.destinationPostalCode)
      && q[6].1 == FromOption(c.destinationCityName)
      && q[12].1 == FromOption(c.unitOfMeasurement)
      && q[15].1 == FromOption(c.currency)
  {
  }

  /** The weight is sent rounded to three places and the dimensions to two,
      the shipping date is the one given, the customs flag says whether the
      two country codes differ other than in case, and the next business day
      is not requested. */
  lemma QueryParamsDerived(c: Client, shippingDate: string)
    requires c.originCountryCode.Some? && c.destinationCountryCode.Some?
    ensures QueryParams(c, shippingDate).Ok?
    ensures var q := QueryParams(c, shippingDate).value;
      && |q| == 16
      && q[7].1 == Num(RoundUnits(c.weight, 3), 3)
      && q[8].1 == Num(RoundUnits(c.length, 2), 2)
      && q[9].1 == Num(RoundUnits(c.width, 2), 2)
      && q[10].1 == Num(RoundUnits(c.height, 2), 2)
      && q[11].1 == Str(shippingDate)
      && q[13].1 == Flag(!EqualIgnoringCase(c.originCountryCode.value, c.destinationCountryCode.value))
      && q[14].1 == Flag(false)
  {
    UpcaseEqualIff(c.originCountryCode.value, c.destinationCountryCode.value);
  }

  /** `build_uri` and `build_request`: the endpoint, the query, HTTP Basic
      authentication with `"#{@username}:#{@password}"`, and JSON. */
  function BuildRequest(c: Client, today: int): (r: Result<Request>)
    ensures r.Ok? <==> QueryParams(c, PlannedShippingDate(today)).Ok?
    ensures r.Ok? ==> r.value.query == QueryParams(c, PlannedShippingDate(today)).value
  {
    match QueryParams(c, PlannedShippingDate(today))
    case Raised => Raised
    case Ok(q) =>
      Ok(Request(RatesUrl(c.sandbox), q, [
        ("Authorization", BasicAuthorization(ToS(c.username), ToS(c.password))),
        ("Accept", "application/json")]))
  }

  /** The request goes to the sandbox or the production endpoint, and its
      Authorization header gives the server back the username and password
      (when the username has no colon). */
  lemma BuildRequestSpec(c: Client, today: int)
    requires BuildRequest(c, today).Ok?
    requires ':' !in ToS(c.username)
    ensures var req := BuildRequest(c, today).value;
      && req.url == (if c.sandbox then "https://express.api.dhl.com/mydhlapi/test/rates"
                     else "https://express.api.dhl.com/mydhlapi/rates")
      && |req.headers| == 2 && req.headers[0].0 == "Authorization"
      && BasicCredentials(req.headers[0].1) == Some((ToS(c.username), ToS(c.password)))
      && req.headers[1] == ("Accept", "application/json")
  {
    RatesUrls();
    BasicCredentialsRoundTrip(ToS(c.username), ToS(c.password));
  }

  /** What `cheapest_rate` makes of the data `fetch_rates` returned: it
      raises exactly on a JSON value that is not an object, and a rate only
      comes from an object's products. */
  function RateFrom(data: Option<Document>): (r: Result<Option<real>>)
    ensures r.Raised? <==> data == Some(NotObject)
    ensures r.Ok? && r.value.Some? ==>
      data.Some? && data.value.Object? && data.value.products.Some? &&
      exists i :: 0 <= i < |data.value.products.value| && BilledPrice(data.value.products.value[i]) == r.value
  {
    match ProductsOf(data)
    case Raised => Raised
    case Ok(None) => Ok(None)
    case Ok(Some(ps)) => Ok(Cheapest(ps))
  }

  /** What `cheapest_rate` gives once its request is built (or building it
      raised): nil when building raised, since `fetch_rates` rescues the
      error, otherwise the reduced answer to the request. */
  function RateOf(request: Result<Request>, respond: Request -> Transport): Result<Option<real>> {
    match request
    case Raised => Ok(None)
    case Ok(req) => RateFrom(FetchOutcome(respond(req)))
  }

  /** The requests sent for a built request: it alone, or none when
      building it raised. */
  function SentFor(request: Result<Request>): seq<Request> {
    match request
    case Raised => []
    case Ok(req) => [req]
  }

  /** `cheapest_rate`, with the network as `respond`. */
  function CheapestRate(c: Client, today: int, respond: Request -> Transport): Result<Option<real>> {
    RateOf(BuildRequest(c, today), respond)
  }

  /** The requests `cheapest_rate` sends: one, unless building it raised. */
  function RequestsSent(c: Client, today: int): seq<Request> {
    SentFor(BuildRequest(c, today))
  }

  /** The tail of `cheapest_rate`: the built request is sent through the
      carrier, unless building it raised, and the answer reduced. */
  method SendRequest(request: Result<Request>, carrier: Carrier) returns (r: Result<Option<real>>)
    modifies carrier
    ensures r == RateOf(request, carrier.respond)
    ensures carrier.sent == old(carrier.sent) + SentFor(request)
  {
    if request.Raised? {
      r := Ok(None);
    } else {
      var t := carrier.Send(request.value);
      r := RateFrom(FetchOutcome(t));
    }
  }

  /** `cheapest_rate` as it runs: the request is built, sent through the
      carrier unless building it raised, and the answer reduced. */
  method RequestCheapestRate(c: Client, today: int, carrier: Carrier) returns (r: Result<Option<real>>)
    modifies carrier
    ensures r == CheapestRate(c, today, carrier.respond)
    ensures carrier.sent == old(carrier.sent) + RequestsSent(c, today)
  {
    var request := BuildRequest(c, today);
    r := SendRequest(request, carrier);
  }

  /** A non-2xx status, a body that is not JSON, or a failed connection
      gives nil, as does an error while building the request. */
  lemma FailureGivesNil(c: Client, today: int, respond: Request -> Transport)
    requires BuildRequest(c, today).Ok? ==>
      var t := respond(BuildRequest(c, today).value);
      t.Failed? || !IsSuccess(t.status) || t.body.Unparseable?
    ensures CheapestRate(c, today, respond) == Ok(None)
  {
  }

  /** With a 2xx JSON object as the answer, the rate is `Cheapest` of its
      products: the least price some product is billed at, nil exactly when
      no product has one (an empty or missing product list included). */
  lemma CheapestRateSpec(c: Client, today: int, respond: Request -> Transport, ps: seq<Product>)
    requires BuildRequest(c, today).Ok?
    requires FetchOutcome(respond(BuildRequest(c, today).value)) == Some(Object(Some(ps)))
    ensures CheapestRate(c, today, respond) == Ok(Cheapest(ps))
  {
    var req := BuildRequest(c, today).value;
    assert CheapestRate(c, today, respond) == RateFrom(FetchOutcome(respond(req)));
    if |ps| == 0 {
      assert ProductsOf(Some(Object(Some(ps)))) == Ok(None);
      assert Cheapest(ps) == None;
    } else {
      assert ProductsOf(Some(Object(Some(ps)))) == Ok(Some(ps));
    }
  }

  /** A response that is JSON but not an object makes `cheapest_rate` raise. */
  lemma NotObjectRaises(c: Client, today: int, respond: Request -> Transport)
    requires BuildRequest(c, today).Ok?
    requires FetchOutcome(respond(BuildRequest(c, today).value)) == Some(NotObject)
    ensures CheapestRate(c, today, respond) == Raised
  {
  }

  /** The products of the multi-product response: BILLC 45.00 and 38.50
      (with PULC 30.00 and 20.00) give 38.50. */
  lemma TwoProductsExample()
    ensures Cheapest([
      Product(Some("P"), Some([PriceEntry(Some("PULC"), Some(30.0)), PriceEntry(Some("BILLC"), Some(45.0))])),
      Product(Some("D"), Some([PriceEntry(Some("PULC"), Some(20.0)), PriceEntry(Some("BILLC"), Some(38.5))]))])
      == Some(38.5)
  {
    var p := Product(Some("P"), Some([PriceEntry(Some("PULC"), Some(30.0)), PriceEntry(Some("BILLC"), Some(45.0))]));
    var d := Product(Some("D"), Some([PriceEntry(Some("PULC"), Some(20.0)), PriceEntry(Some("BILLC"), Some(38.5))]));
    assert "PULC" != "BILLC" by { assert "PULC"[0] != "BILLC"[0]; }
    assert BilledPrice(p) == Some(45.0);
    assert BilledPrice(d) == Some(38.5);
  }

  /** Products priced only in PULC contribute nothing: the rate is nil. */
  lemma PickupOnlyExample()
    ensures Cheapest([Product(Some("P"), Some([PriceEntry(Some("PULC"), Some(30.0))]))]) == None
  {
    var p := Product(Some("P"), Some([PriceEntry(Some("PULC"), Some(30.0))]));
    assert "PULC" != "BILLC" by { assert "PULC"[0] != "BILLC"[0]; }
    assert BilledPrice(p) == None;
  }

  /** A single product billed at 55.00 gives 55.00. */
  lemma SingleProductExample()
    ensures Cheapest([Product(Some("P"), Some([PriceEntry(Some("BILLC"), Some(55.0))]))]) == Some(55.0)
  {
    var p := Product(Some("P"), Some([PriceEntry(Some("BILLC"), Some(55.0))]));
    assert BilledPrice(p) == Some(55.0);
  }

  /** An empty `products` array gives nil. */
  lemma EmptyProductsExample()
    ensures RateFrom(Some(Object(Some([])))) == Ok(None)
  {
  }

  /** The client of the request-structure examples: US to DE, 1.5 kg. */
  function ExampleClient(): Client {
    Client(Some("testuser"), Some("testpass"), Some("123456789"), Some("US"), Some("10001"),
      Some("New York"), Some("DE"), Some("10115"), Some("Berlin"), 1.5, 10.0, 5.0, 3.0,
      unitOfMeasurement := Some("metric"), currency := Some("USD"), sandbox := true)
  }

  /** US to DE is customs-declarable. */
  lemma ExampleCustoms(shippingDate: string)
    ensures QueryParams(ExampleClient(), shippingDate).Ok?
    ensures Lookup(QueryParams(ExampleClient(), shippingDate).value, "isCustomsDeclarable") == Some(Flag(true))
  {
    var c := ExampleClient();
    QueryParamsDerived(c, shippingDate);
    assert !EqualIgnoringCase("US", "DE") by { assert !SameLetter("US"[0], "DE"[0]); }
    LookupQuery(QueryParams(c, shippingDate).value, 13);
  }

  /** A weight of 1.5 is sent as 1500 thousandths (the text "1.5", by
      `WeightText`). */
  lemma ExampleWeight(shippingDate: string)
    ensures QueryParams(ExampleClient(), shippingDate).Ok?
    ensures Lookup(QueryParams(ExampleClient(), shippingDate).value, "weight") == Some(Num(1500, 3))
  {
    var c := ExampleClient();
    QueryParamsDerived(c, shippingDate);
    LookupQuery(QueryParams(c, shippingDate).value, 7);
    WeightText();
  }

  /** `1.5.round(3).to_s` is "1.5". */
  lemma WeightText()
    ensures RoundUnits(1.5, 3) == 1500
    ensures Render(1500, 3) == "1.5"
  {
    assert Pow10(3) == 1000;
    var qr := QuoRem(1500, Pow10(3));
    assert qr == (1, 500);
    assert Digits(1) == "1";
    var padded := Padded(500, 3);
    assert padded == "500" by {
      assert Digits(500) == Digits(50) + ['0'];
      assert Digits(50) == Digits(5) + ['0'];
    }
    assert TrimZeros("500") == "5" by {
      assert "500"[..2] == "50";
      assert "50"[..1] == "5";
    }
  }
}
