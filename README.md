# DHL Express rate quotes for Spree, modelled in Dafny

This project models the rate-quote pipeline of a Spree extension that prices
shipments with DHL Express.

- `Spree::Calculator::Shipping::DhlExpress` decides whether a package can be
  rated. For one that can, it:
  - sums the package's dimensions over its contents;
  - builds a cache key;
  - on a cache miss, asks `SpreeDhl::DhlExpressClient` for the cheapest rate;
  - keeps the answer for ten minutes;
  - turns every error into nil.
- The two generations of the rating client are both modelled:
  - `SpreeDhl::DhlExpressClient` (the older one);
  - `SpreeMydhl::DhlExpressClient` (the newer one).

  Each builds a GET request with:
  - the endpoint;
  - an HTTP Basic `Authorization` header;
  - the query parameters, including the customs flag and the planned shipping date.

  Each then reduces the parsed answer to the least billed (`BILLC`) price.

Modules, one per file:

| file | module | what it holds |
|---|---|---|
| `ruby_text.dfy` | `RubyText` | nil, `to_s`, `blank?`, `presence`, `strip.empty?`, `upcase`, `Array#join` with its inverse `Split` |
| `decimal.dfy` | `Decimal` | `Float#round(n)` as a count of 10^-n units, and `Float#to_s` of the rounded value with its parser |
| `calendar.dfy` | `Calendar` | dates as day numbers, `wday`, `saturday?`/`sunday?`, `Date#iso8601` through the proleptic Gregorian calendar |
| `encoding.dfy` | `Encoding` | UTF-8 (RFC 3629, section 3), base64 (RFC 4648, section 4), the Basic `Authorization` value (RFC 7617, section 2), each with its decoder |
| `dhl_api.dfy` | `DhlApi` | what both clients share: base URLs, query values, the request, the transport outcome, the parsed response, the `BILLC` reduction, and the network as a `Carrier` class that logs what it is sent |
| `dhl_client.dfy` | `DhlClient` | `SpreeDhl::DhlExpressClient` |
| `mydhl_client.dfy` | `MydhlClient` | `SpreeMydhl::DhlExpressClient` |
| `calculator.dfy` | `DhlExpressCalculator` | the calculator, its `Rails.cache` store as a `RateCache` class, and `compute_package` as a method |

The code has three forms:
- **Pure functions.** The clients and the calculator's helpers are pure functions over records.
- **A loop.** `package_dimensions` is a `for` loop proved against the function `DimensionsOf`.
- **State changes.** `compute_package` changes a `RateCache` (a `map` from key to entry) and a `Carrier` (the log of requests sent). Its contract says:
  - when the package is unratable, nothing changes;
  - on a fresh hit, the cached value is returned and no request is sent;
  - on a miss, exactly the client's request is sent, and the entry is either rewritten or dropped.

Inputs the source takes from the environment become parameters:
- the clock: `today` as a day number, and `now` in seconds;
- `Spree::Config.currency`: `configCurrency`;
- the gem version: `version`;
- the network: a `Carrier` whose `respond` is any function from request to transport outcome.

## Model

| member | source | states |
|---|---|---|
| `DhlExpressCalculator.RequiredPreferencesBlank` | app/models/spree/calculator/shipping/dhl_express.rb:69-78 | blank iff at least one of the six required preferences (username, password, account number, origin country code, origin postal code, origin city) is nil or blank |
| `DhlExpressCalculator.Available` | app/models/spree/calculator/shipping/dhl_express.rb:18-26 | a ratable package ships to an address that has a country |
| `DhlExpressCalculator.AvailableIff` | app/models/spree/calculator/shipping/dhl_express.rb:18-26 | a package is ratable iff all of these hold: the six required preferences are non-blank (origin city included), the order has a ship address, that address has a country, and the country's ISO code is non-blank |
| `DhlExpressCalculator.BlankCityUnavailable` | app/models/spree/calculator/shipping/dhl_express.rb:69-78 | a nil or blank origin city makes every package unratable |
| `DhlExpressCalculator.PackageWeight` | app/models/spree/calculator/shipping/dhl_express.rb:80-83 | the weight when it is positive, 0.1 otherwise; always > 0 |
| `DhlExpressCalculator.AtLeastOne` | app/models/spree/calculator/shipping/dhl_express.rb:98-100 | a positive total is kept and any other becomes 1.0, so the result is > 0 |
| `DhlExpressCalculator.DimensionsOf` | app/models/spree/calculator/shipping/dhl_express.rb:97-101 | every component of a package's dimensions is > 0 |
| `DhlExpressCalculator.PackageDimensions` | app/models/spree/calculator/shipping/dhl_express.rb:85-102 | the loop's three running sums end as `DimensionsOf(contents)`: the per-variant sums with non-positive totals floored to 1.0 |
| `DhlExpressCalculator.TotalsAppend` | app/models/spree/calculator/shipping/dhl_express.rb:90-95 | the totals of two runs of contents are the sums of their totals |
| `DhlExpressCalculator.TotalsSwap` | app/models/spree/calculator/shipping/dhl_express.rb:90-95 | the order of the contents does not change the totals |
| `DhlExpressCalculator.QuantityIgnored` | app/models/spree/calculator/shipping/dhl_express.rb:90-95 | contents with the same variants in the same order have the same totals and dimensions, whatever the quantities |
| `DhlExpressCalculator.EmptyContents` | app/models/spree/calculator/shipping/dhl_express.rb:97-101 | empty contents measure 1.0 x 1.0 x 1.0 |
| `DhlExpressCalculator.SingleItem` | app/models/spree/calculator/shipping/dhl_express.rb:90-101 | one item whose variant measures are all positive gives exactly those measures |
| `DhlExpressCalculator.EffectiveCurrency` | app/models/spree/calculator/shipping/dhl_express.rb:104-106 | the currency preference when it is non-blank, the store's currency otherwise |
| `DhlExpressCalculator.CacheKey` | app/models/spree/calculator/shipping/dhl_express.rb:108-123 | every key starts with `spree_dhl/rates/` |
| `DhlExpressCalculator.KeyPartsPrefix` | app/models/spree/calculator/shipping/dhl_express.rb:109-122 | any join of the twelve parts starts with `spree_dhl/rates/` |
| `DhlExpressCalculator.CacheKeyIgnores` | app/models/spree/calculator/shipping/dhl_express.rb:108-123 | preferences that agree on origin country and postal code give the same key, whatever their currency, account number, unit, origin city or sandbox flag |
| `DhlExpressCalculator.KeyPartsSlashFree` | app/models/spree/calculator/shipping/dhl_express.rb:109-122 | if no field text holds a '/', no part of the key does |
| `DhlExpressCalculator.KeyPartsInjective` | app/models/spree/calculator/shipping/dhl_express.rb:109-122 | when no field holds a '/', equal joins mean field-by-field equal texts |
| `DhlExpressCalculator.CacheKeyInjective` | app/models/spree/calculator/shipping/dhl_express.rb:108-123 | when no free-text field holds a '/', equal keys mean: the same origin country and postal code, the same destination, the same weight rounded to 3 places, the same dimensions rounded to 2, and the same day |
| `DhlExpressCalculator.CacheKeyCollision` | app/models/spree/calculator/shipping/dhl_express.rb:114-116 | without that condition, postal code "1/2" with city "3" shares a key with postal code "1" with city "2/3" |
| `DhlExpressCalculator.KeyPartsCollision` | app/models/spree/calculator/shipping/dhl_express.rb:114-116 | the same collision, at the level of the joined parts |
| `DhlExpressCalculator.PackageKey` | app/models/spree/calculator/shipping/dhl_express.rb:31-39 | the key of a package starts with `spree_dhl/rates/` |
| `DhlExpressCalculator.PackageClient` | app/models/spree/calculator/shipping/dhl_express.rb:42-59 | the client's weight and dimensions are positive, and for a ratable package both country codes are present |
| `DhlExpressCalculator.PackageClientSpec` | app/models/spree/calculator/shipping/dhl_express.rb:31-59 | for a ratable package the client gets the preferences' username, password, account number, origin country, postal code and city, unit and sandbox flag; the package's destination country, postal code and city; `package_weight` as its weight and `package_dimensions` as its length, width and height; and the effective currency |
| `DhlExpressCalculator.AvailableSendsOne` | app/models/spree/calculator/shipping/dhl_express.rb:41-60 | for a ratable package, the client always builds its request, so a miss sends exactly one request |
| `DhlExpressCalculator.RateCache.constructor` | app/models/spree/calculator/shipping/dhl_express.rb:41 | a new store is empty |
| `DhlExpressCalculator.RateCache.Lookup` | app/models/spree/calculator/shipping/dhl_express.rb:41 | a hit iff the entry exists and has not expired, and a hit returns the stored value (nil included) and changes nothing; otherwise the key is dropped and nothing else changes |
| `DhlExpressCalculator.RateCache.Store` | app/models/spree/calculator/shipping/dhl_express.rb:41 | writes the value under the key with expiry now + 600 s, changes no other key, and the key is fresh for the next ten minutes |
| `DhlExpressCalculator.FetchMiss` | app/models/spree/calculator/shipping/dhl_express.rb:41-65 | sends exactly the built request (none if building raised); if reducing the answer raised, returns nil and leaves the store unchanged; otherwise returns the rate and caches it under the key |
| `DhlExpressCalculator.FetchRate` | app/models/spree/calculator/shipping/dhl_express.rb:41-65 | a fresh entry is returned with no request and no change; otherwise the stale key is dropped and the miss is handled as in `FetchMiss` |
| `DhlExpressCalculator.ComputePackage` | app/models/spree/calculator/shipping/dhl_express.rb:28-65 | an unratable package gives nil and touches neither store nor network; a fresh entry under the package's key is returned without a request; otherwise the package's client sends its one request, and the rate is returned and cached, or nil is returned and nothing is cached when reducing the answer raised |
| `DhlExpressCalculator.RateTwice` | app/models/spree/calculator/shipping/dhl_express.rb:41 | rating a package twice within ten minutes of a miss that produced a rate sends one request, not two, and gives the same rate both times |
| `DhlClient.PlannedShippingDay` | lib/spree_dhl/dhl_express_client.rb:114-119 | the planned day is within [today, today + 2], is a weekday, and no earlier day in that range is one; a weekday today is kept |
| `DhlClient.PlannedShippingDate` | lib/spree_dhl/dhl_express_client.rb:114-119 | the date text reads back as the planned day |
| `DhlClient.QueryParams` | lib/spree_dhl/dhl_express_client.rb:91-111 | the query is built iff both country codes are present, and then names all sixteen parameters in order, unfiltered |
| `DhlClient.QueryParamsValues` | lib/spree_dhl/dhl_express_client.rb:94-110 | the account number, origin country, postal code and city, destination country, postal code and city, unit and currency are sent as given |
| `DhlClient.QueryParamsDerived` | lib/spree_dhl/dhl_express_client.rb:92-109 | the weight is sent rounded to 3 places, and the length, width and height to 2; the date is the planned one; `isCustomsDeclarable` is true iff the country codes differ other than in case; `nextBusinessDay` is false |
| `DhlClient.BuildRequest` | lib/spree_dhl/dhl_express_client.rb:77-89 | the request exists iff the query does, and carries it unchanged |
| `DhlClient.BuildRequestSpec` | lib/spree_dhl/dhl_express_client.rb:77-89 | the sandbox flag selects `.../mydhlapi/test/rates` or `.../mydhlapi/rates`; the Authorization header decodes back to the username and password; Accept is JSON |
| `DhlClient.RateFrom` | lib/spree_dhl/dhl_express_client.rb:36-52 | `cheapest_rate` raises iff the data is a JSON value that is neither an object nor null, and a rate comes only from an object's products, as the billed price of one of them |
| `DhlClient.SendRequest` | lib/spree_dhl/dhl_express_client.rb:56-75 | the carrier is sent the built request, or nothing when building it raised, and the result is the rate its answer gives |
| `DhlClient.RequestCheapestRate` | lib/spree_dhl/dhl_express_client.rb:36-75 | the carrier is sent exactly the request `cheapest_rate` builds (none if building raised), and the result is the rate its answer gives |
| `DhlClient.FailureGivesNil` | lib/spree_dhl/dhl_express_client.rb:56-75 | a failed connection, a non-2xx status, a non-JSON body or a failure to build the request gives nil |
| `DhlClient.CheapestRateSpec` | lib/spree_dhl/dhl_express_client.rb:36-52 | a 2xx JSON object answer gives `Cheapest` of its products |
| `DhlClient.NotObjectRaises` | lib/spree_dhl/dhl_express_client.rb:40 | a JSON answer that is not an object makes `cheapest_rate` raise |
| `DhlClient.TwoProductsExample` | lib/spree_dhl/dhl_express_client.rb:43-51 | BILLC 45.00 and 38.50, with PULC 30.00 and 20.00, give 38.50 |
| `DhlClient.PickupOnlyExample` | lib/spree_dhl/dhl_express_client.rb:43-51 | a product priced only in PULC gives nil |
| `DhlClient.SingleProductExample` | lib/spree_dhl/dhl_express_client.rb:43-51 | a single product billed at 55.00 gives 55.00 |
| `DhlClient.EmptyProductsExample` | lib/spree_dhl/dhl_express_client.rb:40-41 | an empty `products` array gives nil |
| `DhlClient.ExampleCustoms` | lib/spree_dhl/dhl_express_client.rb:92 | US to DE is sent as customs-declarable |
| `DhlClient.ExampleWeight` | lib/spree_dhl/dhl_express_client.rb:102 | a weight of 1.5 is sent as 1500 thousandths |
| `DhlClient.WeightText` | lib/spree_dhl/dhl_express_client.rb:102 | 1.5 rounded to 3 places is 1500 thousandths and is written "1.5" |
| `MydhlClient.CustomsDeclarable` | lib/spree_mydhl/dhl_express_client.rb:123-127 | the caller's setting when it is not nil; otherwise true iff the country codes differ other than in case; raises only when that comparison meets a nil code |
| `MydhlClient.PlannedShippingDate` | lib/spree_mydhl/dhl_express_client.rb:129-131 | the date text reads back as today |
| `MydhlClient.QueryParams` | lib/spree_mydhl/dhl_express_client.rb:102-121 | the query is built iff the customs flag is set or both codes are present, and then names all sixteen parameters in order |
| `MydhlClient.QueryParamsValues` | lib/spree_mydhl/dhl_express_client.rb:104-107 | the account number and the origin country, postal code and city are put in as given |
| `MydhlClient.QueryParamsDestination` | lib/spree_mydhl/dhl_express_client.rb:108-110 | the destination country, postal code and city are put in as given |
| `MydhlClient.QueryParamsDerived` | lib/spree_mydhl/dhl_express_client.rb:111-119 | the weight is put in rounded to 3 places, and the length, width and height to 2; the date is the planned one; the customs flag is `customs_declarable?`; `nextBusinessDay` is true; the unit and currency are as given |
| `MydhlClient.DropBlank` | lib/spree_mydhl/dhl_express_client.rb:90 | a parameter is kept iff its text is not empty after stripping; nothing is added |
| `MydhlClient.DropBlankKeepsAll` | lib/spree_mydhl/dhl_express_client.rb:90 | with no blank value, the query is kept as it is, in order |
| `MydhlClient.DropBlankKeepsNumbersAndFlags` | lib/spree_mydhl/dhl_express_client.rb:90 | numbers and booleans are never dropped, `false` included |
| `MydhlClient.DropBlankRemovesName` | lib/spree_mydhl/dhl_express_client.rb:90 | a blank parameter whose name is unique leaves nothing under that name |
| `MydhlClient.BlankAccountNotSent` | lib/spree_mydhl/dhl_express_client.rb:90-104 | a nil or blank account number is not sent at all |
| `MydhlClient.FlagsAndMeasuresSent` | lib/spree_mydhl/dhl_express_client.rb:90-118 | the customs flag, `nextBusinessDay` true, the rounded weight and the rounded length, width and height are always sent |
| `MydhlClient.BuildRequest` | lib/spree_mydhl/dhl_express_client.rb:87-100 | the request exists iff the query does, and carries its non-blank parameters |
| `MydhlClient.BuildRequestSpec` | lib/spree_mydhl/dhl_express_client.rb:87-100 | the sandbox flag selects the endpoint; the Authorization header decodes back to the API key and secret; Accept is JSON; User-Agent is `spree_mydhl/` and the version |
| `MydhlClient.Select` | lib/spree_mydhl/dhl_express_client.rb:47 | keeps exactly the products of the given code |
| `MydhlClient.RateFrom` | lib/spree_mydhl/dhl_express_client.rb:39-59 | `cheapest_rate` raises iff the data is a JSON value that is neither an object nor null, and a rate comes only from an object's products, as the billed price of one of them |
| `MydhlClient.Chosen` | lib/spree_mydhl/dhl_express_client.rb:46-49 | the products priced are exactly the eligible ones: those of the requested code when a code is present, all of them otherwise |
| `MydhlClient.RateFromChosen` | lib/spree_mydhl/dhl_express_client.rb:39-59 | the rate of a product list is `Cheapest` of the chosen products; an empty selection gives nil |
| `MydhlClient.NoProductsGivesNil` | lib/spree_mydhl/dhl_express_client.rb:40-44 | no data, JSON null, or a missing or empty `products` gives nil |
| `MydhlClient.RateFromSpec` | lib/spree_mydhl/dhl_express_client.rb:39-59 | for a product list, a non-nil rate is the billed price of some eligible product (those of the code when a code is present) and at most that of every eligible product; nil iff no eligible product has one |
| `MydhlClient.FailureGivesNil` | lib/spree_mydhl/dhl_express_client.rb:64-85 | a failed connection, a non-2xx status, a non-JSON body or a failure to build the request gives nil |
| `MydhlClient.ProductCodeExample` | lib/spree_mydhl/dhl_express_client.rb:46-59 | with code "D" requested, only D's BILLC 38.50 counts, not P's 30.00 |
| `DhlApi.RatesUrls` | lib/spree_dhl/dhl_express_client.rb:10-11 | the two endpoints written out, and distinct |
| `DhlApi.OnlyTextIsBlank` | lib/spree_mydhl/dhl_express_client.rb:90 | only nil or a blank String can strip to empty text; numbers and booleans cannot |
| `DhlApi.QueryKeysDistinct` | lib/spree_dhl/dhl_express_client.rb:94-111 | the sixteen parameter names are pairwise distinct |
| `DhlApi.LookupQuery` | lib/spree_dhl/dhl_express_client.rb:94-111 | in a query naming the sixteen parameters, each is found by its name |
| `DhlApi.FetchOutcome` | lib/spree_dhl/dhl_express_client.rb:56-75 | data comes back iff the response is 2xx with a JSON body, and is that body |
| `DhlApi.ProductsOf` | lib/spree_dhl/dhl_express_client.rb:37-41 | a product list handed on is never empty |
| `DhlApi.FindBilled` | lib/spree_dhl/dhl_express_client.rb:47 | the index of the first BILLC entry, or none when there is none |
| `DhlApi.BilledPrice` | lib/spree_dhl/dhl_express_client.rb:44-48 | a product without a `totalPrice` array contributes nothing; otherwise it contributes the price of the first BILLC entry, or nothing when that entry has no price; a contributed price is the price of some BILLC entry; a product with no BILLC entry contributes nothing |
| `DhlApi.Prices` | lib/spree_dhl/dhl_express_client.rb:43-49 | a price is collected iff some product contributes it |
| `DhlApi.Minimum` | lib/spree_dhl/dhl_express_client.rb:51 | nil iff the list is empty; otherwise an element that is at most every element |
| `DhlApi.Cheapest` | lib/spree_dhl/dhl_express_client.rb:43-51 | a non-nil rate is some product's billed price and at most every billed price; nil iff no product has one |
| `DhlApi.Carrier.Send` | lib/spree_dhl/dhl_express_client.rb:60-62 | returns the network's answer to the request and appends the request to the log |
| `Encoding.BasicAuthorization` | lib/spree_dhl/dhl_express_client.rb:86 | the header starts with "Basic " and has the base64 length of the UTF-8 bytes of "user:password" |
| `Encoding.BasicCredentialsRoundTrip` | lib/spree_dhl/dhl_express_client.rb:86 | decoding the header gives back the user and password, when the user has no colon |
| `Encoding.Base64RoundTrip` | lib/spree_mydhl/dhl_express_client.rb:96 | base64 decoding undoes `strict_encode64` |
| `Encoding.Utf8RoundTrip` | lib/spree_mydhl/dhl_express_client.rb:96 | UTF-8 decoding undoes a string's bytes |
| `Decimal.RoundUnits` | lib/spree_dhl/dhl_express_client.rb:102-105 | the rounded count of 10^-n units is within half a unit of the value, with halves rounded away from zero, and has the value's sign |
| `Decimal.RenderRoundTrip` | lib/spree_dhl/dhl_express_client.rb:102-105 | the text of a rounded value reads back as that value |
| `Decimal.RenderInjective` | app/models/spree/calculator/shipping/dhl_express.rb:117-120 | different rounded values never have the same text |
| `Calendar.CivilRoundTrip` | lib/spree_dhl/dhl_express_client.rb:118 | converting a day number to a calendar date and back gives the same day |
| `Calendar.Epoch` | lib/spree_dhl/dhl_express_client.rb:115-118 | day 0 is 1970-01-01 and a Thursday, so the weekday tests and the ISO text count days from the same anchor |
| `Calendar.Iso8601RoundTrip` | lib/spree_dhl/dhl_express_client.rb:118 | reading an ISO date text back gives the day it was written from |
| `Calendar.Iso8601Injective` | app/models/spree/calculator/shipping/dhl_express.rb:121 | different days have different ISO texts |
| `Calendar.Iso8601` | lib/spree_dhl/dhl_express_client.rb:118 | an ISO date has at least ten characters, all digits or '-' |
| `RubyText.Presence` | app/models/spree/calculator/shipping/dhl_express.rb:105 | the receiver iff it is not blank, nil otherwise |
| `RubyText.UpcaseEqualIff` | lib/spree_dhl/dhl_express_client.rb:92 | upcased strings are equal iff the strings are equal letter by letter up to ASCII case |
| `RubyText.SplitJoin` | app/models/spree/calculator/shipping/dhl_express.rb:122 | splitting a join of separator-free parts at the separator gives the parts back |
| `RubyText.JoinInjective` | app/models/spree/calculator/shipping/dhl_express.rb:122 | equal joins of separator-free lists of equal length come from equal lists |

## Left out

- HTTP itself is not modelled: `Net::HTTP.start`, TLS, and the open and read timeouts. The network is the `Carrier`'s `respond` function, which returns a response or a failure.
- `JSON.parse` is not modelled. The body is taken as already parsed: an object with its `products`, JSON null, another JSON value, or unparseable text.
- The model treats every parsed JSON value that is neither an object nor null as raising at `data['products']`. In Ruby, a JSON string body goes to `String#[]`. A string without "products" in it gives nil, so `cheapest_rate` gives nil where the model raises. A string that contains "products" gives "products", and `filter_map` on it raises, as in the model.
- A `products` value that is not an array cannot be written as a `Document`. In Ruby, `{}` and "" give nil, being empty; a non-empty string, a number or a boolean raises. A non-empty object raises in `SpreeDhl::DhlExpressClient`, and in `SpreeMydhl::DhlExpressClient` when no product code is set. With a product code set, `Hash#select` hands the block each key string, so the selection is empty and `cheapest_rate` gives nil, unless a key contains "productCode" and the code is that very text.
- Inside a product, only `productCode`, `totalPrice` (an array or not) and each entry's `currencyType` and `price` are modelled. A `price` that is not a number, a product that is not a hash and a `totalPrice` entry that is not a hash are not modelled.
- `URI.encode_www_form` percent-encoding is not modelled. The query is kept as a list of (name, value) pairs.
- Logging (`Rails.logger`) and the text of error messages are left out.
- `Float#round` and `Float#to_s` are modelled on exact reals with a fixed-point rendering. Binary floating point is not modelled, nor the exponent form of `to_s` for very large or small values, nor `-0.0`. Float sums in `package_dimensions` are exact sums of reals.
- `upcase` is modelled on ASCII letters only. Other Unicode case mappings are not modelled.
- `Date.today` and `Date.current` are the parameter `today`, a day number in the proleptic Gregorian calendar. Time zones and Ruby's Julian-calendar dates before 1582 are not modelled.
- `Rails.cache` is modelled as a single map. Other cache processes, eviction under memory pressure, and races between two requests for the same key are not modelled.
- `SpreeMydhl::VERSION` is the parameter `version`.
- ComputePackage builds the client's request before the cache lookup, where the source builds it inside the `fetch` block. Building a request is pure and sends nothing, so the order is not observable; the request is still sent only on a miss.
- The calculator is modelled as the code has it, which differs from what its tests expect:
  - the origin city is a required preference;
  - keys start with `spree_dhl/rates/`;
  - `fetch` is called without `skip_nil`, so a nil rate is cached;
  - the currency falls back to `Spree::Config.currency`, not to the order's currency;
  - the calculator has no minimum or maximum weight, and passes no next-business-day or customs preference to the client.
- The admin form helper, the JavaScript bootstrap, and the gem's `require` wiring are user interface and setup, not logic, and are not part of this model.
- DhlClient.BuildRequestSpec and MydhlClient.BuildRequestSpec state that the Authorization header decodes back to the credentials, not its literal text. The concrete header for testuser/testpass (`Basic dGVzdHVzZXI6dGVzdHBhc3M=`) is not evaluated. Evaluating base64 on a 17-byte literal is too costly for the verifier; the round trip through the base64 alphabet of RFC 4648 is proved instead.
