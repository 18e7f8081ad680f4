/** `Spree::Calculator::Shipping::DhlExpress`: decides whether a package can
    be rated, measures it, keys the rate cache, and on a miss asks the
    `SpreeDhl` client for the cheapest rate, caching it for ten minutes and
    turning every error into nil. */
module DhlExpressCalculator {
  import opened RubyText
  import opened Decimal
  import opened Calendar
  import opened DhlApi
  import DhlClient

  /** The calculator's preferences, with their defaults. */
  datatype Preferences = Preferences(
    username: Option<string>,
    password: Option<string>,
    accountNumber: Option<string>,
    originCountryCode: Option<string>,
    originPostalCode: Option<string>,
    originCityName: Option<string>,
    nameonly unitOfMeasurement: Option<string> := Some("metric"),
    nameonly currency: Option<string> := None,
    nameonly sandbox: bool := false)

  /** The parts of Spree's order, address, variant and package records the
      calculator reads. A missing `depth`, `width` or `height` is None. */
  datatype Country = Country(iso: Option<string>)
  datatype Address = Address(country: Option<Country>, zipcode: Option<string>, city: Option<string>)
  datatype Order = Order(shipAddress: Option<Address>)
  datatype Variant = Variant(depth: Option<real>, width: Option<real>, height: Option<real>)
  datatype ContentItem = ContentItem(variant: Variant, quantity: nat)
  datatype Package = Package(order: Order, weight: real, contents: seq<ContentItem>)

  /** The list `required_preferences_blank?` checks, in its order. */
  function RequiredPreferences(p: Preferences): seq<Option<string>> {
    [p.username, p.password, p.accountNumber, p.originCountryCode, p.originPostalCode, p.originCityName]
  }

  /** `required_preferences_blank?`: `any?(&:blank?)` over that list, so
      blank exactly when one of the six preferences is. */
  function RequiredPreferencesBlank(p: Preferences): (b: bool)
    ensures b <==>
      || Blank(p.username) || Blank(p.password) || Blank(p.accountNumber)
      || Blank(p.originCountryCode) || Blank(p.originPostalCode) || Blank(p.originCityName)
  {
    var r := RequiredPreferences(p);
    assert r[0] == p.username && r[1] == p.password && r[2] == p.accountNumber;
    assert r[3] == p.originCountryCode && r[4] == p.originPostalCode && r[5] == p.originCityName;
    exists i :: 0 <= i < |r| && Blank(r[i])
  }

  /** `package.order.ship_address.country&.iso`, nil when there is no
      address or no country. */
  function DestinationIso(pkg: Package): Option<string> {
    match pkg.order.shipAddress
    case None => None
    case Some(a) =>
      match a.country
      case None => None
      case Some(c) => c.iso
  }

  /** `available?`: a ratable package ships to an address with a country. */
  function Available(p: Preferences, pkg: Package): (b: bool)
    ensures b ==> pkg.order.shipAddress.Some? && pkg.order.shipAddress.value.country.Some?
  {
    !RequiredPreferencesBlank(p) && pkg.order.shipAddress.Some? && !Blank(DestinationIso(pkg))
  }

  /** A package can be rated exactly when all six required preferences,
      the origin city among them, are present and the order ships to an
      address whose country has a non-blank ISO code. */
  lemma AvailableIff(p: Preferences, pkg: Package)
    ensures Available(p, pkg) <==>
      && !Blank(p.username) && !Blank(p.password) && !Blank(p.accountNumber)
      && !Blank(p.originCountryCode) && !Blank(p.originPostalCode) && !Blank(p.originCityName)
      && pkg.order.shipAddress.Some?
      && pkg.order.shipAddress.value.country.Some?
      && !Blank(pkg.order.shipAddress.value.country.value.iso)
  {
  }

  /** A blank origin city makes the package unratable, as it is one of the
      required preferences. */
  lemma BlankCityUnavailable(p: Preferences, pkg: Package)
    requires Blank(p.originCityName)
    ensures !Available(p, pkg)
  {
  }

  /** `package_weight`: the weight when it is positive, 0.1 otherwise, so
      never zero or negative. */
  function PackageWeight(weight: real): (w: real)
    ensures w > 0.0
    ensures weight > 0.0 ==> w == weight
    ensures weight <= 0.0 ==> w == 0.1
  {
    if weight > 0.0 then weight else 0.1
  }

  /** `nil.to_f` is 0.0. */
  function ToF(x: Option<real>): real {
    match x
    case None => 0.0
    case Some(v) => v
  }

  /** Length, width and height of a package. */
  datatype Dimensions = Dimensions(length: real, width: real, height: real)

  function Add(a: Dimensions, b: Dimensions): Dimensions {
    Dimensions(a.length + b.length, a.width + b.width, a.height + b.height)
  }

  /** The depth, width and height of one item's variant, its quantity
      ignored. */
  function ItemDimensions(c: ContentItem): Dimensions {
    Dimensions(ToF(c.variant.depth), ToF(c.variant.width), ToF(c.variant.height))
  }

  /** The three running totals of `package_dimensions` after the items
      `cs`. */
  function Totals(cs: seq<ContentItem>): Dimensions
    decreases |cs|
  {
    if |cs| == 0 then Dimensions(0.0, 0.0, 0.0)
    else Add(Totals(cs[..|cs| - 1]), ItemDimensions(cs[|cs| - 1]))
  }

  /** `x.positive? ? x : 1.0`. */
  function AtLeastOne(x: real): (r: real)
    ensures r > 0.0
    ensures x > 0.0 ==> r == x
    ensures x <= 0.0 ==> r == 1.0
  {
    if x > 0.0 then x else 1.0
  }

  /** The hash `package_dimensions` returns: each total, or 1.0 where the
      total is not positive. */
  function DimensionsOf(cs: seq<ContentItem>): (d: Dimensions)
    ensures d.length > 0.0 && d.width > 0.0 && d.height > 0.0
  {
    var t := Totals(cs);
    Dimensions(AtLeastOne(t.length), AtLeastOne(t.width), AtLeastOne(t.height))
  }

  /** `package_dimensions`: the loop over the contents. */
  method PackageDimensions(pkg: Package) returns (d: Dimensions)
    ensures d == DimensionsOf(pkg.contents)
  {
    var totalLength, totalWidth, totalHeight := 0.0, 0.0, 0.0;
    for i := 0 to |pkg.contents|
      invariant Dimensions(totalLength, totalWidth, totalHeight) == Totals(pkg.contents[..i])
    {
      var variant := pkg.contents[i].variant;
      assert pkg.contents[..i + 1][..i] == pkg.contents[..i];
      totalLength := totalLength + ToF(variant.depth);
      totalWidth := totalWidth + ToF(variant.width);
      totalHeight := totalHeight + ToF(variant.height);
    }
    assert pkg.contents[..|pkg.contents|] == pkg.contents;
    d := Dimensions(AtLeastOne(totalLength), AtLeastOne(totalWidth), AtLeastOne(totalHeight));
  }

  /** The totals of two runs of items are the sums of their totals. */
  lemma {:induction false} TotalsAppend(a: seq<ContentItem>, b: seq<ContentItem>)
    ensures Totals(a + b) == Add(Totals(a), Totals(b))
    decreases |b|
  {
    if |b| == 0 {
      assert a + b == a;
    } else {
      var b' := b[..|b| - 1];
      assert (a + b)[..|a + b| - 1] == a + b';
      TotalsAppend(a, b');
    }
  }

  /** The order of the contents does not matter. */
  lemma TotalsSwap(a: seq<ContentItem>, b: seq<ContentItem>)
    ensures Totals(a + b) == Totals(b + a)
  {
    TotalsAppend(a, b);
    TotalsAppend(b, a);
  }

  /** Quantities do not matter: contents with the same variants in the same
      order have the same dimensions. */
  lemma {:induction false} QuantityIgnored(a: seq<ContentItem>, b: seq<ContentItem>)
    requires |a| == |b|
    requires forall i :: 0 <= i < |a| ==> a[i].variant == b[i].variant
    ensures DimensionsOf(a) == DimensionsOf(b)
    ensures Totals(a) == Totals(b)
    decreases |a|
  {
    if |a| > 0 {
      QuantityIgnored(a[..|a| - 1], b[..|b| - 1]);
    }
  }

  /** A package without contents measures 1.0 x 1.0 x 1.0. */
  lemma EmptyContents()
    ensures DimensionsOf([]) == Dimensions(1.0, 1.0, 1.0)
  {
  }

  /** A single variant of positive measures gives its own measures, whatever
      the quantity. */
  lemma SingleItem(c: ContentItem)
    requires ToF(c.variant.depth) > 0.0 && ToF(c.variant.width) > 0.0 && ToF(c.variant.height) > 0.0
    ensures DimensionsOf([c]) == ItemDimensions(c)
  {
    assert [c][..0] == [];
    assert Totals([c]) == Add(Totals([]), ItemDimensions(c));
  }

  /** `effective_currency`: the currency preference when present, otherwise
      the store's default currency. */
  function EffectiveCurrency(p: Preferences, configCurrency: string): (c: string)
    ensures !Blank(p.currency) ==> c == p.currency.value
    ensures Blank(p.currency) ==> c == configCurrency
  {
    match Presence(p.currency)
    case Some(c) => c
    case None => configCurrency
  }

  /** The parts `build_cache_key` joins, in order, given the text of each
      field: two constants, the origin, the destination, the rounded weight
      and dimensions, and the date. */
  function KeyParts(originCountry: string, originPostal: string,
                    destCountry: string, destPostal: string, destCity: string,
                    weight: string, length: string, width: string, height: string,
                    date: string): (parts: seq<string>)
    ensures |parts| == 12
  {
    ["spree_dhl", "rates", originCountry, originPostal, destCountry, destPostal, destCity,
     weight, length, width, height, date]
  }

  /** `build_cache_key`: the parts joined with '/', the weight rounded to
      three places, the dimensions to two, and today's date. Every key
      starts with "spree_dhl/rates/". */
  function CacheKey(p: Preferences, destCountry: string, destPostal: string, destCity: string,
                    weight: real, dims: Dimensions, today: int): (k: string)
    ensures "spree_dhl/rates/" <= k
  {
    KeyPartsPrefix(ToS(p.originCountryCode), ToS(p.originPostalCode), destCountry, destPostal, destCity,
      Render(RoundUnits(weight, 3), 3), Render(RoundUnits(dims.length, 2), 2),
      Render(RoundUnits(dims.width, 2), 2), Render(RoundUnits(dims.height, 2), 2),
      Iso8601(today));
    Join(KeyParts(ToS(p.originCountryCode), ToS(p.originPostalCode), destCountry, destPostal, destCity,
      Render(RoundUnits(weight, 3), 3), Render(RoundUnits(dims.length, 2), 2),
      Render(RoundUnits(dims.width, 2), 2), Render(RoundUnits(dims.height, 2), 2),
      Iso8601(today)), '/')
  }

  /** The two constant parts lead any join of the key's parts. */
  lemma KeyPartsPrefix(originCountry: string, originPostal: string,
                       destCountry: string, destPostal: string, destCity: string,
                       weight: string, length: string, width: string, height: string, date: string)
    ensures "spree_dhl/rates/" <= Join(KeyParts(originCountry, originPostal, destCountry, destPostal, destCity,
      weight, length, width, height, date), '/')
  {
    var parts := KeyParts(originCountry, originPostal, destCountry, destPostal, destCity,
      weight, length, width, height, date);
    JoinStartsWithTwo(parts, '/');
  }

  /** The key does not depend on the currency, the account number, the unit
      of measurement, the origin city or the sandbox flag: calculators that
      differ only in those share cache entries. */
  lemma CacheKeyIgnores(p: Preferences, q: Preferences, destCountry: string, destPostal: string,
                        destCity: string, weight: real, dims: Dimensions, today: int)
    requires p.originCountryCode == q.originCountryCode && p.originPostalCode == q.originPostalCode
    ensures CacheKey(p, destCountry, destPostal, destCity, weight, dims, today)
         == CacheKey(q, destCountry, destPostal, destCity, weight, dims, today)
  {
  }

  /** No part but the free-text ones can hold the '/' separator. */
  predicate SlashFree(p: Preferences, destCountry: string, destPostal: string, destCity: string) {
    && '/' !in ToS(p.originCountryCode) && '/' !in ToS(p.originPostalCode)
    && '/' !in destCountry && '/' !in destPostal && '/' !in destCity
  }

  /** Parts without a '/' are recovered from the joined key, field by field. */
  lemma KeyPartsInjective(originCountry: string, originPostal: string,
                          destCountry: string, destPostal: string, destCity: string,
                          weight: string, length: string, width: string, height: string, date: string,
                          originCountry': string, originPostal': string,
                          destCountry': string, destPostal': string, destCity': string,
                          weight': string, length': string, width': string, height': string, date': string)
    requires var a := KeyParts(originCountry, originPostal, destCountry, destPostal, destCity,
      weight, length, width, height, date);
      forall i :: 0 <= i < |a| ==> '/' !in a[i]
    requires var b := KeyParts(originCountry', originPostal', destCountry', destPostal', destCity',
      weight', length', width', height', date');
      forall i :: 0 <= i < |b| ==> '/' !in b[i]
    requires Join(KeyParts(originCountry, originPostal, destCountry, destPostal, destCity,
        weight, length, width, height, date), '/')
      == Join(KeyParts(originCountry', originPostal', destCountry', destPostal', destCity',
        weight', length', width', height', date'), '/')
    ensures originCountry == originCountry' && originPostal == originPostal'
    ensures destCountry == destCountry' && destPostal == destPostal' && destCity == destCity'
    ensures weight == weight' && length == length' && width == width' && height == height'
    ensures date == date'
  {
    var a := KeyParts(originCountry, originPostal, destCountry, destPostal, destCity,
      weight, length, width, height, date);
    var b := KeyParts(originCountry', originPostal', destCountry', destPostal', destCity',
      weight', length', width', height', date');
    JoinInjective(a, b, '/');
    assert a[2] == b[2] && a[3] == b[3] && a[4] == b[4] && a[5] == b[5] && a[6] == b[6];
    assert a[7] == b[7] && a[8] == b[8] && a[9] == b[9] && a[10] == b[10] && a[11] == b[11];
  }

  /** When no field holds a '/', equal keys mean the same origin, the same
      destination, the same rounded weight and dimensions, and the same
      date: the key tells rate requests apart. */
  lemma CacheKeyInjective(p: Preferences, destCountry: string, destPostal: string, destCity: string,
                          weight: real, dims: Dimensions, today: int,
                          p': Preferences, destCountry': string, destPostal': string, destCity': string,
                          weight': real, dims': Dimensions, today': int)
    requires SlashFree(p, destCountry, destPostal, destCity)
    requires SlashFree(p', destCountry', destPostal', destCity')
    requires CacheKey(p, destCountry, destPostal, destCity, weight, dims, today)
          == CacheKey(p', destCountry', destPostal', destCity', weight', dims', today')
    ensures ToS(p.originCountryCode) == ToS(p'.originCountryCode)
    ensures ToS(p.originPostalCode) == ToS(p'.originPostalCode)
    ensures destCountry == destCountry' && destPostal == destPostal' && destCity == destCity'
    ensures RoundUnits(weight, 3) == RoundUnits(weight', 3)
    ensures RoundUnits(dims.length, 2) == RoundUnits(dims'.length, 2)
    ensures RoundUnits(dims.width, 2) == RoundUnits(dims'.width, 2)
    ensures RoundUnits(dims.height, 2) == RoundUnits(dims'.height, 2)
    ensures today == today'
  {
    var w, l, wd, h, d := Render(RoundUnits(weight, 3), 3), Render(RoundUnits(dims.length, 2), 2),
      Render(RoundUnits(dims.width, 2), 2), Render(RoundUnits(dims.height, 2), 2), Iso8601(today);
    var w', l', wd', h', d' := Render(RoundUnits(weight', 3), 3), Render(RoundUnits(dims'.length, 2), 2),
      Render(RoundUnits(dims'.width, 2), 2), Render(RoundUnits(dims'.height, 2), 2), Iso8601(today');
    NumeralHasNoSlash(w); NumeralHasNoSlash(l); NumeralHasNoSlash(wd); NumeralHasNoSlash(h);
    NumeralHasNoSlash(w'); NumeralHasNoSlash(l'); NumeralHasNoSlash(wd'); NumeralHasNoSlash(h');
    DateHasNoSlash(d); DateHasNoSlash(d');
    KeyPartsSlashFree(ToS(p.originCountryCode), ToS(p.originPostalCode), destCountry, destPostal, destCity,
      w, l, wd, h, d);
    KeyPartsSlashFree(ToS(p'.originCountryCode), ToS(p'.originPostalCode), destCountry', destPostal', destCity',
      w', l', wd', h', d');
    KeyPartsInjective(ToS(p.originCountryCode), ToS(p.originPostalCode), destCountry, destPostal, destCity,
      w, l, wd, h, d,
      ToS(p'.originCountryCode), ToS(p'.originPostalCode), destCountry', destPostal', destCity',
      w', l', wd', h', d');
    RenderInjective(RoundUnits(weight, 3), RoundUnits(weight', 3), 3);
    RenderInjective(RoundUnits(dims.length, 2), RoundUnits(dims'.length, 2), 2);
    RenderInjective(RoundUnits(dims.width, 2), RoundUnits(dims'.width, 2), 2);
    RenderInjective(RoundUnits(dims.height, 2), RoundUnits(dims'.height, 2), 2);
    Iso8601Injective(today, today');
  }

  lemma KeyPartsSlashFree(originCountry: string, originPostal: string,
                          destCountry: string, destPostal: string, destCity: string,
                          weight: string, length: string, width: string, height: string, date: string)
    requires '/' !in originCountry && '/' !in originPostal
    requires '/' !in destCountry && '/' !in destPostal && '/' !in destCity
    requires '/' !in weight && '/' !in length && '/' !in width && '/' !in height && '/' !in date
    ensures var a := KeyParts(originCountry, originPostal, destCountry, destPostal, destCity,
      weight, length, width, height, date);
      forall i :: 0 <= i < |a| ==> '/' !in a[i]
  {
  }

  /** Without that condition two destinations can share a key: postal code
      "1/2" with city "3", and postal code "1" with city "2/3". */
  lemma CacheKeyCollision(p: Preferences, destCountry: string, weight: real, dims: Dimensions, today: int)
    ensures CacheKey(p, destCountry, "1/2", "3", weight, dims, today)
         == CacheKey(p, destCountry, "1", "2/3", weight, dims, today)
  {
    KeyPartsCollision(ToS(p.originCountryCode), ToS(p.originPostalCode), destCountry,
      Render(RoundUnits(weight, 3), 3), Render(RoundUnits(dims.length, 2), 2),
      Render(RoundUnits(dims.width, 2), 2), Render(RoundUnits(dims.height, 2), 2),
      Iso8601(today));
  }

  lemma KeyPartsCollision(originCountry: string, originPostal: string, destCountry: string,
                          weight: string, length: string, width: string, height: string, date: string)
    ensures Join(KeyParts(originCountry, originPostal, destCountry, "1/2", "3", weight, length, width, height, date), '/')
         == Join(KeyParts(originCountry, originPostal, destCountry, "1", "2/3", weight, length, width, height, date), '/')
  {
    var a := KeyParts(originCountry, originPostal, destCountry, "1/2", "3", weight, length, width, height, date);
    var b := KeyParts(originCountry, originPostal, destCountry, "1", "2/3", weight, length, width, height, date);
    assert a == a[..5] + a[5..7] + a[7..];
    assert b == b[..5] + b[5..7] + b[7..];
    assert a[..5] == b[..5] && a[7..] == b[7..];
    JoinAppend(a[..5], a[5..7], '/');
    JoinAppend(a[..5] + a[5..7], a[7..], '/');
    JoinAppend(b[..5], b[5..7], '/');
    JoinAppend(b[..5] + b[5..7], b[7..], '/');
    assert Join(a[5..7], '/') == "1/2/3" by {
      assert a[5..7] == ["1/2", "3"];
      assert a[5..7][1..] == ["3"];
    }
    assert Join(b[5..7], '/') == "1/2/3" by {
      assert b[5..7] == ["1", "2/3"];
      assert b[5..7][1..] == ["2/3"];
    }
  }

  /** The key of a package, as `compute_package` derives it: its
      destination, weight and dimensions; like every key, it starts with
      "spree_dhl/rates/". */
  function PackageKey(p: Preferences, pkg: Package, today: int): (k: string)
    requires pkg.order.shipAddress.Some?
    ensures "spree_dhl/rates/" <= k
  {
    var a := pkg.order.shipAddress.value;
    CacheKey(p, ToS(DestinationIso(pkg)), ToS(a.zipcode), ToS(a.city),
      PackageWeight(pkg.weight), DimensionsOf(pkg.contents), today)
  }

  /** The client `compute_package` builds for a package: its weight and
      dimensions are positive, and for a ratable package both country codes
      are present, so the query can be built. */
  function PackageClient(p: Preferences, pkg: Package, configCurrency: string): (c: DhlClient.Client)
    requires pkg.order.shipAddress.Some?
    ensures c.weight > 0.0 && c.length > 0.0 && c.width > 0.0 && c.height > 0.0
    ensures Available(p, pkg) ==> c.originCountryCode.Some? && c.destinationCountryCode.Some?
  {
    var a := pkg.order.shipAddress.value;
    var dims := DimensionsOf(pkg.contents);
    DhlClient.Client(p.username, p.password, p.accountNumber,
      p.originCountryCode, p.originPostalCode, p.originCityName,
      Some(ToS(DestinationIso(pkg))), Some(ToS(a.zipcode)), Some(ToS(a.city)),
      PackageWeight(pkg.weight), dims.length, dims.width, dims.height,
      unitOfMeasurement := p.unitOfMeasurement,
      currency := Some(EffectiveCurrency(p, configCurrency)),
      sandbox := p.sandbox)
  }

  /** The client gets the preferences' credentials, account, origin, unit
      and sandbox flag, the package's destination country, postal code and
      city, the package's weight and dimensions, and the effective
      currency. */
  lemma PackageClientSpec(p: Preferences, pkg: Package, configCurrency: string)
    requires Available(p, pkg)
    ensures var c := PackageClient(p, pkg, configCurrency);
      var a := pkg.order.shipAddress.value;
      && c.username == p.username && c.password == p.password && c.accountNumber == p.accountNumber
      && c.originCountryCode == p.originCountryCode && c.originPostalCode == p.originPostalCode
      && c.originCityName == p.originCityName
      && c.destinationCountryCode == DestinationIso(pkg)
      && c.destinationPostalCode == Some(ToS(a.zipcode)) && c.destinationCityName == Some(ToS(a.city))
      && c.weight == PackageWeight(pkg.weight)
      && Dimensions(c.length, c.width, c.height) == DimensionsOf(pkg.contents)
      && c.unitOfMeasurement == p.unitOfMeasurement && c.sandbox == p.sandbox
      && c.currency == Some(EffectiveCurrency(p, configCurrency))
  {
  }

  /** For a ratable package the client's request is always built, so a
      cache miss sends exactly one request. */
  lemma AvailableSendsOne(p: Preferences, pkg: Package, configCurrency: string, today: int)
    requires Available(p, pkg)
    ensures |DhlClient.RequestsSent(PackageClient(p, pkg, configCurrency), today)| == 1
  {
    AvailableIff(p, pkg);
    var c := PackageClient(p, pkg, configCurrency);
  }

  /** A cached rate: the value (nil included, as `fetch` is not given
      `skip_nil`) and when it stops being fresh, in seconds. */
  datatype Entry = Entry(value: Option<real>, expiresAt: int)

  /** `expires_in: 10.minutes`. */
  const ExpiresIn: int := 600

  /** The `Rails.cache` store as `fetch` uses it. */
  class RateCache {
    var entries: map<string, Entry>

    constructor()
      ensures entries == map[]
    {
      entries := map[];
    }

    /** An entry for `key` that has not expired at `now`. */
    predicate Fresh(key: string, now: int)
      reads this
    {
      key in entries && now < entries[key].expiresAt
    }

    /** The read half of `fetch`: a fresh entry is a hit (even when it holds
        nil); an expired entry is deleted. */
    method Lookup(key: string, now: int) returns (hit: Option<Option<real>>)
      modifies this
      ensures hit.Some? <==> old(Fresh(key, now))
      ensures hit.Some? ==> hit.value == old(entries[key].value) && entries == old(entries)
      ensures hit.None? ==> entries == old(entries) - {key}
    {
      if key in entries && now < entries[key].expiresAt {
        hit := Some(entries[key].value);
      } else {
        hit := None;
        entries := entries - {key};
      }
    }

    /** The write half of `fetch`: the block's value, fresh for ten minutes. */
    method Store(key: string, value: Option<real>, now: int)
      modifies this
      ensures entries == old(entries)[key := Entry(value, now + ExpiresIn)]
      ensures forall t :: now <= t < now + ExpiresIn ==> Fresh(key, t)
    {
      entries := entries[key := Entry(value, now + ExpiresIn)];
    }
  }

  /** A miss of `Rails.cache.fetch`: the block sends the client's request;
      its rate is cached for ten minutes and returned, unless reducing the
      answer raised, which `compute_package` rescues to nil, caching
      nothing. */
  method FetchMiss(cache: RateCache, carrier: Carrier, key: string, request: Result<Request>, now: int)
    returns (rate: Option<real>)
    modifies cache, carrier
    ensures var outcome := DhlClient.RateOf(request, carrier.respond);
      && carrier.sent == old(carrier.sent) + DhlClient.SentFor(request)
      && (outcome.Raised? ==> rate.None? && cache.entries == old(cache.entries))
      && (outcome.Ok? ==>
            rate == outcome.value && cache.entries == old(cache.entries)[key := Entry(rate, now + ExpiresIn)])
  {
    var outcome := DhlClient.SendRequest(request, carrier);
    if outcome.Raised? {
      return None;
    }
    cache.Store(key, outcome.value, now);
    rate := outcome.value;
  }

  /** The `Rails.cache.fetch` of `compute_package` under its `rescue`: a
      fresh entry is returned without a request; otherwise the expired
      entry is dropped and the miss is handled as `FetchMiss` says. */
  method FetchRate(cache: RateCache, carrier: Carrier, key: string, request: Result<Request>, now: int)
    returns (rate: Option<real>)
    modifies cache, carrier
    ensures old(cache.Fresh(key, now)) ==>
      && rate == old(cache.entries[key].value)
      && cache.entries == old(cache.entries) && carrier.sent == old(carrier.sent)
    ensures !old(cache.Fresh(key, now)) ==>
      var outcome := DhlClient.RateOf(request, carrier.respond);
      && carrier.sent == old(carrier.sent) + DhlClient.SentFor(request)
      && (outcome.Raised? ==> rate.None? && cache.entries == old(cache.entries) - {key})
      && (outcome.Ok? ==>
            rate == outcome.value && cache.entries == old(cache.entries)[key := Entry(rate, now + ExpiresIn)])
  {
    var hit := cache.Lookup(key, now);
    if hit.Some? {
      return hit.value;
    }
    ghost var dropped := cache.entries;
    rate := FetchMiss(cache, carrier, key, request, now);
    assert dropped[key := Entry(rate, now + ExpiresIn)] == old(cache.entries)[key := Entry(rate, now + ExpiresIn)];
  }

  /** `compute_package`, with the clock as `today` and `now`, the store's
      default currency as `configCurrency`, and the network as `carrier`.
      An unratable package is nil and touches nothing; otherwise the
      package's key and client are looked up and fetched as `FetchRate`
      says. The client's request is built before the lookup rather than
      inside the block; building it is pure, so nothing observable moves. */
  method ComputePackage(cache: RateCache, carrier: Carrier, p: Preferences, pkg: Package,
                        configCurrency: string, today: int, now: int) returns (rate: Option<real>)
    modifies cache, carrier
    ensures !Available(p, pkg) ==>
      rate.None? && cache.entries == old(cache.entries) && carrier.sent == old(carrier.sent)
    ensures Available(p, pkg) && old(cache.Fresh(PackageKey(p, pkg, today), now)) ==>
      && rate == old(cache.entries[PackageKey(p, pkg, today)].value)
      && cache.entries == old(cache.entries) && carrier.sent == old(carrier.sent)
    ensures Available(p, pkg) && !old(cache.Fresh(PackageKey(p, pkg, today), now)) ==>
      var key := PackageKey(p, pkg, today);
      var client := PackageClient(p, pkg, configCurrency);
      var outcome := DhlClient.CheapestRate(client, today, carrier.respond);
      && carrier.sent == old(carrier.sent) + DhlClient.RequestsSent(client, today)
      && (outcome.Raised? ==> rate.None? && cache.entries == old(cache.entries) - {key})
      && (outcome.Ok? ==>
            rate == outcome.value && cache.entries == old(cache.entries)[key := Entry(rate, now + ExpiresIn)])
  {
    if !Available(p, pkg) {
      return None;
    }
    var destination := pkg.order.shipAddress.value;
    var destCountry := ToS(DestinationIso(pkg));
    var destPostal := ToS(destination.zipcode);
    var destCity := ToS(destination.city);
    var weight := PackageWeight(pkg.weight);
    var dimensions := PackageDimensions(pkg);
    var key := CacheKey(p, destCountry, destPostal, destCity, weight, dimensions, today);
    var client := DhlClient.Client(p.username, p.password, p.accountNumber,
      p.originCountryCode, p.originPostalCode, p.originCityName,
      Some(destCountry), Some(destPostal), Some(destCity),
      weight, dimensions.length, dimensions.width, dimensions.height,
      unitOfMeasurement := p.unitOfMeasurement,
      currency := Some(EffectiveCurrency(p, configCurrency)),
      sandbox := p.sandbox);
    assert key == PackageKey(p, pkg, today);
    assert client == PackageClient(p, pkg, configCurrency);
    var request := DhlClient.BuildRequest(client, today);
    rate := FetchRate(cache, carrier, key, request, now);
  }

  /** Rating the same package twice within ten minutes of a miss that
      produced a rate sends one request, not two, and gives the same rate
      both times. */
  method RateTwice(cache: RateCache, carrier: Carrier, p: Preferences, pkg: Package,
                   configCurrency: string, today: int, now: int, later: int)
    returns (first: Option<real>, second: Option<real>)
    requires Available(p, pkg)
    requires now <= later < now + ExpiresIn
    requires !cache.Fresh(PackageKey(p, pkg, today), now)
    requires DhlClient.CheapestRate(PackageClient(p, pkg, configCurrency), today, carrier.respond).Ok?
    modifies cache, carrier
    ensures second == first
    ensures carrier.sent == old(carrier.sent) + DhlClient.RequestsSent(PackageClient(p, pkg, configCurrency), today)
  {
    ghost var key := PackageKey(p, pkg, today);
    first := ComputePackage(cache, carrier, p, pkg, configCurrency, today, now);
    assert cache.entries[key] == Entry(first, now + ExpiresIn);
    assert cache.Fresh(key, later);
    ghost var sent := carrier.sent;
    second := ComputePackage(cache, carrier, p, pkg, configCurrency, today, later);
    assert carrier.sent == sent;
  }
}
