/** The browser-side interpreter of free-text marketplace searches
    (apps/web/src/lib/marketQueryIntent.ts): a category from an ordered alias table, a price
    range, "open now", a named Boston neighbourhood or "near me" with a radius, all turned
    into the filters and map rectangle the marketplace map uses. */
module MarketQueryIntent {
  import opened Wrappers
  import Text
  import opened Regex
  import opened MarketApi

  const DefaultRadiusKm: real := 2.5

  /** A neighbourhood centre and the radius used around it. */
  datatype Center = Center(lat: real, lng: real, radiusKm: Option<real>)

  /** The neighbourhood table in its declaration order; the first name found wins. */
  const NeighborhoodCenters: seq<(string, Center)> := [
    ("fenway", Center(42.3467, -71.0972, Some(2.2))),
    ("back bay", Center(42.3503, -71.081, Some(2.2))),
    ("beacon", Center(42.3574, -71.0693, Some(1.8))),
    ("allston", Center(42.3549, -71.1326, Some(2.5))),
    ("brighton", Center(42.3489, -71.1577, Some(2.8))),
    ("cambridge", Center(42.3736, -71.1097, Some(3.5))),
    ("somerville", Center(42.3876, -71.0995, Some(3.2))),
    ("downtown", Center(42.3551, -71.0656, Some(1.9))),
    ("south end", Center(42.3398, -71.0749, Some(2.0)))
  ]

  /** Category aliases in declaration order; the first alias found in the text wins. */
  const CategoryAliases: seq<(string, string)> := [
    ("bakery", "bakery"), ("bread", "bakery"), ("pastries", "bakery"), ("pastry", "bakery"),
    ("cafe", "cafe"), ("coffee", "cafe"), ("pizza", "pizza"), ("sushi", "sushi"),
    ("vegan", "vegan"), ("vegetarian", "vegetarian"), ("dessert", "dessert"),
    ("groceries", "grocery"), ("grocery", "grocery")
  ]

  const Categories: set<string> := {"bakery", "cafe", "pizza", "sushi", "vegan", "vegetarian", "dessert", "grocery"}

  const LocationNote: string := "Could not access your location. Showing current map area instead."

  /** What a search means; an absent field is `None`. */
  datatype ParsedIntent = ParsedIntent(
    category: Option<string>,
    minPriceDollars: Option<real>,
    maxPriceDollars: Option<real>,
    openNow: Option<bool>,
    bounds: Option<Bounds>,
    nearMe: Option<bool>,
    radiusKm: Option<real>,
    note: Option<string>)

  const EmptyIntent: ParsedIntent := ParsedIntent(None, None, None, None, None, None, None, None)

  /** The index of the first entry of `table`, from `i` on, whose key occurs in `text`. */
  function FirstKeyFrom<V>(text: string, table: seq<(string, V)>, i: nat): (r: Option<nat>)
    requires i <= |table|
    ensures r.Some? ==> i <= r.value < |table| && Text.Contains(text, table[r.value].0)
    ensures r.Some? ==> forall j :: i <= j < r.value ==> !Text.Contains(text, table[j].0)
    ensures r.None? ==> forall j :: i <= j < |table| ==> !Text.Contains(text, table[j].0)
    decreases |table| - i
  {
    if i == |table| then None
    else if Text.Contains(text, table[i].0) then Some(i)
    else FirstKeyFrom(text, table, i + 1)
  }

  /** `Object.keys(CATEGORY_ALIASES).find(key => text.includes(key))`, mapped to its category. */
  function DetectCategory(text: string): (r: Option<string>)
    ensures r.Some? ==> r.value in Categories
    ensures r.Some? <==> exists i :: 0 <= i < |CategoryAliases| && Text.Contains(text, CategoryAliases[i].0)
    ensures r.Some? ==> exists i :: (0 <= i < |CategoryAliases| && Text.Contains(text, CategoryAliases[i].0)
      && r.value == CategoryAliases[i].1 && forall j :: 0 <= j < i ==> !Text.Contains(text, CategoryAliases[j].0))
  {
    match FirstKeyFrom(text, CategoryAliases, 0)
    case Some(i) => Some(CategoryAliases[i].1)
    case None => None
  }

  /** A square of half-side `radiusKm` around a centre: one degree of latitude is 111 km, and a
      degree of longitude is 111 km times the cosine of the latitude, floored at 0.1 so the
      box stays finite near the poles. `cosDeg` is the cosine of an angle given in degrees. */
  function ToBoundsFromCenter(cosDeg: real -> real, lat: real, lng: real, radiusKm: real): (b: Bounds)
    ensures b.sw_lat + b.ne_lat == 2.0 * lat && b.sw_lng + b.ne_lng == 2.0 * lng
    ensures b.ne_lat - b.sw_lat == 2.0 * radiusKm / 111.0
    ensures radiusKm > 0.0 ==> b.sw_lat < b.ne_lat && b.sw_lng < b.ne_lng
    ensures radiusKm >= 0.0 ==> b.ne_lng - b.sw_lng <= 2.0 * radiusKm / 11.1
  {
    var latDelta := radiusKm / 111.0;
    var m := MaxReal(cosDeg(lat), 0.1);
    var lngDelta := radiusKm / (111.0 * m);
    LongitudeDelta(radiusKm, m);
    Bounds(lat - latDelta, lng - lngDelta, lat + latDelta, lng + lngDelta)
  }

  lemma LongitudeDelta(r: real, m: real)
    requires m >= 0.1
    ensures r > 0.0 ==> r / (111.0 * m) > 0.0
    ensures r >= 0.0 ==> r / (111.0 * m) <= r / 11.1
  {
    if r >= 0.0 {
      var d := r / (111.0 * m);
      assert d * (111.0 * m) == r;
      assert d * 11.1 <= d * (111.0 * m);
    }
  }

  const MileUnits: seq<string> := ["mi", "mile", "miles"]
  const KmUnits: seq<string> := ["km", "kilometer", "kilometers"]

  /** `within\s+(\d+(?:\.\d+)?)\s*(?:u1|u2|u3)\b` at position i: the number. */
  function WithinAt(s: string, i: nat, units: seq<string>): (r: Option<real>)
    ensures r.Some? ==> r.value >= 0.0 && Text.OccursAt(s, i, "within")
  {
    if !Text.OccursAt(s, i, "within") then None
    else
      var j := i + 6;
      var k := SpacesEnd(s, j);
      if k == j then None
      else
        match DecimalAt(s, k)
        case None => None
        case Some(n) =>
          var u := SpacesEnd(s, n.end);
          if exists a | 0 <= a < |units| :: Text.OccursAt(s, u, units[a]) && WordBoundaryAt(s, u + |units[a]|)
          then Some(n.value) else None
  }

  function WithinCont(text: string, units: seq<string>): nat -> Option<real> {
    (i: nat) => WithinAt(text, i, units)
  }

  /** `text.match(within ... unit)`: the number of the leftmost match. */
  function WithinMatch(text: string, units: seq<string>): Option<real> {
    Leftmost(text, 0, WithinCont(text, units))
  }

  /** Miles first (converted at 1.60934 km per mile), then kilometres, each floored at
      half a kilometre; 2.5 km when neither is written. */
  function DetectRadiusKm(text: string): (r: real)
    ensures r >= 0.5
    ensures !Text.Contains(text, "within") ==> r == DefaultRadiusKm
  {
    match WithinMatch(text, MileUnits)
    case Some(miles) => MaxReal(miles * 1.60934, 0.5)
    case None =>
      match WithinMatch(text, KmUnits)
      case Some(km) => MaxReal(km, 0.5)
      case None => DefaultRadiusKm
  }

  /** `(?:between|from)\s*\$?(num)\s*(?:to|-|and)\s*\$?(num)` at position i: both numbers. */
  function BetweenAt(s: string, i: nat): (r: Option<(real, real)>)
    ensures r.Some? ==> r.value.0 >= 0.0 && r.value.1 >= 0.0
  {
    FirstAlternative(s, i, ["between", "from"], BetweenTailCont(s))
  }

  function BetweenTailCont(s: string): nat -> Option<(real, real)> {
    (j: nat) => BetweenTail(s, j)
  }

  function BetweenTail(s: string, j: nat): (r: Option<(real, real)>)
    ensures r.Some? ==> r.value.0 >= 0.0 && r.value.1 >= 0.0
  {
    match AmountAt(s, j)
    case None => None
    case Some(a) => FirstAlternative(s, SpacesEnd(s, a.end), ["to", "-", "and"], SecondAmountCont(s, a.value))
  }

  function SecondAmountCont(s: string, first: real): nat -> Option<(real, real)> {
    (m: nat) => SecondAmount(s, first, m)
  }

  function SecondAmount(s: string, first: real, m: nat): (r: Option<(real, real)>)
    ensures r.Some? ==> r.value.0 == first && r.value.1 >= 0.0
  {
    match AmountAt(s, m)
    case None => None
    case Some(b) => Some((first, b.value))
  }

  function BetweenCont(s: string): nat -> Option<(real, real)> {
    (i: nat) => BetweenAt(s, i)
  }

  /** `text.match(between)`: the two numbers of the leftmost match. */
  function BetweenMatch(text: string): (r: Option<(real, real)>)
    ensures r.Some? ==> r.value.0 >= 0.0 && r.value.1 >= 0.0
  {
    BetweenMatchNonNegative(text);
    Leftmost(text, 0, BetweenCont(text))
  }

  lemma BetweenMatchNonNegative(text: string)
    ensures var r := Leftmost(text, 0, BetweenCont(text)); r.Some? ==> r.value.0 >= 0.0 && r.value.1 >= 0.0
  {
    var r := Leftmost(text, 0, BetweenCont(text));
    if r.Some? {
      var p :| 0 <= p <= |text| && BetweenAt(text, p) == r;
    }
  }

  const UnderWords: seq<string> := ["under", "below", "less than", "maximum price", "maximum", "max price", "max", "up to"]
  const OverWords: seq<string> := ["over", "above", "more than", "minimum price", "minimum", "min price", "min", "at least"]

  function AmountCont(s: string): nat -> Option<Num> {
    (j: nat) => AmountAt(s, j)
  }

  /** `(?:w1|w2|...)\s*\$?(num)` at position i: the number. */
  function BoundAt(s: string, i: nat, words: seq<string>): (r: Option<real>)
    ensures r.Some? ==> r.value >= 0.0
  {
    match FirstAlternative(s, i, words, AmountCont(s))
    case Some(n) => Some(n.value)
    case None => None
  }

  function BoundCont(s: string, words: seq<string>): nat -> Option<real> {
    (i: nat) => BoundAt(s, i, words)
  }

  /** `text.match(re)` for an "under"-type or "over"-type expression: the leftmost number. */
  function BoundMatch(text: string, words: seq<string>): (r: Option<real>)
    ensures r.Some? ==> r.value >= 0.0
  {
    BoundMatchNonNegative(text, words);
    Leftmost(text, 0, BoundCont(text, words))
  }

  lemma BoundMatchNonNegative(text: string, words: seq<string>)
    ensures var r := Leftmost(text, 0, BoundCont(text, words)); r.Some? ==> r.value >= 0.0
  {
    var r := Leftmost(text, 0, BoundCont(text, words));
    if r.Some? {
      var p :| 0 <= p <= |text| && BoundAt(text, p, words) == r;
    }
  }

  /** Price range in dollars. */
  datatype PriceRange = PriceRange(minPriceDollars: Option<real>, maxPriceDollars: Option<real>)

  /** "between a and b" gives both ends, ordered; otherwise an "under"-type phrase gives the
      maximum, an "over"-type phrase the minimum, and "cheap" means at most 10 dollars unless a
      maximum was already given. */
  function DetectPrice(text: string): (p: PriceRange)
    ensures p.minPriceDollars.Some? ==> p.minPriceDollars.value >= 0.0
    ensures p.maxPriceDollars.Some? ==> p.maxPriceDollars.value >= 0.0
    ensures BetweenMatch(text).Some? ==>
      var v := BetweenMatch(text).value;
      p == PriceRange(Some(MinReal(v.0, v.1)), Some(MaxReal(v.0, v.1)))
    ensures p.minPriceDollars.Some? && p.maxPriceDollars.Some? && BetweenMatch(text).Some? ==>
      p.minPriceDollars.value <= p.maxPriceDollars.value
    ensures BetweenMatch(text).None? ==>
      && p.minPriceDollars == BoundMatch(text, OverWords)
      && (BoundMatch(text, UnderWords).Some? ==> p.maxPriceDollars == BoundMatch(text, UnderWords))
      && (BoundMatch(text, UnderWords).None? ==>
            p.maxPriceDollars == (if Text.Contains(text, "cheap") then Some(10.0) else None))
  {
    match BetweenMatch(text)
    case Some(v) => PriceRange(Some(MinReal(v.0, v.1)), Some(MaxReal(v.0, v.1)))
    case None =>
      var under := BoundMatch(text, UnderWords);
      var max := if under.None? && Text.Contains(text, "cheap") then Some(10.0) else under;
      PriceRange(BoundMatch(text, OverWords), max)
  }

  /** Every price expression needs a number, so a text without digits names no price; only
      "cheap" then caps it, at 10 dollars. */
  lemma NoDigitsNoPrice(text: string)
    requires forall k :: 0 <= k < |text| ==> !IsDigit(text[k])
    ensures DetectPrice(text) == PriceRange(None, if Text.Contains(text, "cheap") then Some(10.0) else None)
  {
    forall j: nat ensures AmountAt(text, j).None? {
      if j <= |text| {
        var i := SpacesEnd(text, j);
        var k := if i < |text| && text[i] == '$' then i + 1 else i;
        assert DigitsEnd(text, k) == k;
      }
    }
    forall p: nat | p <= |text| ensures BetweenAt(text, p).None? {
    }
    forall words: seq<string>, p: nat | p <= |text| ensures BoundAt(text, p, words).None? {
    }
    assert BetweenMatch(text).None?;
    assert BoundMatch(text, UnderWords).None?;
    assert BoundMatch(text, OverWords).None?;
  }

  /** The rectangle around the first neighbourhood named in the text. */
  function DetectNeighborhoodBounds(cosDeg: real -> real, text: string): (r: Option<Bounds>)
    ensures r.Some? <==> exists i :: 0 <= i < |NeighborhoodCenters| && Text.Contains(text, NeighborhoodCenters[i].0)
    ensures r.Some? ==> exists i :: (0 <= i < |NeighborhoodCenters| && Text.Contains(text, NeighborhoodCenters[i].0)
      && (forall j :: 0 <= j < i ==> !Text.Contains(text, NeighborhoodCenters[j].0))
      && r.value == CenterBounds(cosDeg, NeighborhoodCenters[i].1))
  {
    match FirstKeyFrom(text, NeighborhoodCenters, 0)
    case Some(i) => Some(CenterBounds(cosDeg, NeighborhoodCenters[i].1))
    case None => None
  }

  /** `toBoundsFromCenter(center.lat, center.lng, center.radiusKm ?? DEFAULT_RADIUS_KM)` */
  function CenterBounds(cosDeg: real -> real, c: Center): Bounds {
    ToBoundsFromCenter(cosDeg, c.lat, c.lng, c.radiusKm.GetOr(DefaultRadiusKm))
  }

  /** Every neighbourhood rectangle is a proper rectangle centred on its neighbourhood. */
  lemma NeighborhoodBoundsAreProper(cosDeg: real -> real, i: nat)
    requires i < |NeighborhoodCenters|
    ensures var c := NeighborhoodCenters[i].1;
      var b := CenterBounds(cosDeg, c);
      b.sw_lat < c.lat < b.ne_lat && b.sw_lng < c.lng < b.ne_lng
  {
    var c := NeighborhoodCenters[i].1;
    assert c.radiusKm.Some? && c.radiusKm.value > 0.0;
  }

  const OpenWords: seq<string> := ["open now", "open", "available now"]
  const NearMeWords: seq<string> := ["near me", "nearby", "around me"]

  /** What `navigator.geolocation` gives: a position, or a failure (no geolocation in the
      browser, or the request refused or timed out). */
  datatype Geolocation = Position(lat: real, lng: real) | Unavailable | Refused

  /** The text the interpreter works on: trimmed, then lower-cased. */
  function Normalize(query: string): string {
    Text.AsciiLower(Text.JsTrim(query))
  }

  /** `parseMarketplaceQuery`. A blank query means nothing. Otherwise category, "open now"
      and price come from the text; a named neighbourhood sets the map rectangle and ends the
      interpretation; failing that, "near me" asks for the device location and sets a radius,
      and either a rectangle around the position or a note that the location was not
      available. `askedLocation` tells whether the device location was requested. */
  method ParseMarketplaceQuery(query: string, cosDeg: real -> real, geo: Geolocation)
    returns (intent: ParsedIntent, askedLocation: bool)
    ensures Normalize(query) == [] ==> intent == EmptyIntent && !askedLocation
    ensures Normalize(query) != [] ==>
      var n := Normalize(query);
      && intent.category == DetectCategory(n)
      && intent.minPriceDollars == DetectPrice(n).minPriceDollars
      && intent.maxPriceDollars == DetectPrice(n).maxPriceDollars
      && intent.openNow == (if TestWordAlternatives(n, OpenWords) then Some(true) else None)
    ensures Normalize(query) != [] && DetectNeighborhoodBounds(cosDeg, Normalize(query)).Some? ==>
      && intent.bounds == DetectNeighborhoodBounds(cosDeg, Normalize(query))
      && intent.nearMe == None && intent.radiusKm == None && intent.note == None && !askedLocation
    ensures Normalize(query) != [] && DetectNeighborhoodBounds(cosDeg, Normalize(query)).None? ==>
      var n := Normalize(query);
      && askedLocation == TestWordAlternatives(n, NearMeWords)
      && (!askedLocation ==>
            intent.bounds == None && intent.nearMe == None && intent.radiusKm == None && intent.note == None)
      && (askedLocation ==>
            && intent.nearMe == Some(true) && intent.radiusKm == Some(DetectRadiusKm(n))
            && (geo.Position? ==>
                  intent.bounds == Some(ToBoundsFromCenter(cosDeg, geo.lat, geo.lng, DetectRadiusKm(n)))
                  && intent.note == None)
            && (!geo.Position? ==> intent.bounds == None && intent.note == Some(LocationNote)))
  {
    var normalized := Normalize(query);
    askedLocation := false;
    if normalized == [] {
      return EmptyIntent, false;
    }
    var price := DetectPrice(normalized);
    intent := EmptyIntent.(
      category := DetectCategory(normalized),
      openNow := if TestWordAlternatives(normalized, OpenWords) then Some(true) else None,
      minPriceDollars := price.minPriceDollars,
      maxPriceDollars := price.maxPriceDollars);
    var neighborhoodBounds := DetectNeighborhoodBounds(cosDeg, normalized);
    if neighborhoodBounds.Some? {
      intent := intent.(bounds := neighborhoodBounds);
      return;
    }
    if TestWordAlternatives(normalized, NearMeWords) {
      var radiusKm := DetectRadiusKm(normalized);
      intent := intent.(nearMe := Some(true), radiusKm := Some(radiusKm));
      askedLocation := true;
      match geo {
        case Position(lat, lng) =>
          intent := intent.(bounds := Some(ToBoundsFromCenter(cosDeg, lat, lng, radiusKm)));
        case _ =>
          intent := intent.(note := Some(LocationNote));
      }
    }
  }
}
