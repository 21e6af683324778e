/**
 * Shaping of geocoding results (src/lib/utils/mapbox.ts): relevance to
 * confidence, the parsing of a feature's context list, the Cameroon bounding
 * box and city list, and the results of address search, address validation
 * and reverse geocoding. The HTTP exchange with the geocoding service is a
 * parameter: the features it returned, or a rejection for a failed or non-OK
 * response.
 */
module Mapbox {
  import opened Wrappers
  import Text

  /** A position as the service writes it: `[longitude, latitude]`. */
  datatype LngLat = LngLat(lng: real, lat: real)

  datatype Confidence = Low | Medium | High

  function Rank(c: Confidence): nat {
    match c
    case Low => 0
    case Medium => 1
    case High => 2
  }

  /** The confidence as the service's string union spells it. */
  function ConfidenceName(c: Confidence): string {
    match c
    case Low => "low"
    case Medium => "medium"
    case High => "high"
  }

  /** `getConfidence`: high from 0.8, medium from 0.5, low below. */
  function GetConfidence(relevance: real): (c: Confidence)
    ensures c == High <==> relevance >= 0.8
    ensures c == Medium <==> 0.5 <= relevance < 0.8
    ensures c == Low <==> relevance < 0.5
  {
    if relevance >= 0.8 then High
    else if relevance >= 0.5 then Medium
    else Low
  }

  /** A higher relevance never gives a lower confidence. */
  lemma ConfidenceMonotone(r1: real, r2: real)
    requires r1 <= r2
    ensures Rank(GetConfidence(r1)) <= Rank(GetConfidence(r2))
  {
  }

  const North := 13.1
  const South := 1.7
  const East := 16.2
  const West := 8.5

  /** `isWithinCameroon`: inclusive latitude and longitude bounds. */
  predicate IsWithinCameroon(c: LngLat) {
    South <= c.lat <= North && West <= c.lng <= East
  }

  lemma WithinCameroonReadsLngLat()
    ensures IsWithinCameroon(LngLat(9.7, 4.0))
    ensures !IsWithinCameroon(LngLat(4.0, 9.7))
    ensures IsWithinCameroon(LngLat(West, South)) && IsWithinCameroon(LngLat(East, North))
  {
  }

  datatype City = City(name: string, coordinates: LngLat)

  /** `getCameroonCities`: ten major cities, each inside the bounding box. */
  function CameroonCities(): (cities: seq<City>)
    ensures |cities| == 10
    ensures forall i :: 0 <= i < |cities| ==> IsWithinCameroon(cities[i].coordinates)
    ensures forall i, j :: 0 <= i < j < |cities| ==> cities[i].name != cities[j].name
  {
    [ City("Douala", LngLat(9.7043, 4.0483)),
      City("Yaound\U{E9}", LngLat(11.5174, 3.848)),
      City("Garoua", LngLat(13.3978, 9.3265)),
      City("Maroua", LngLat(14.3159, 10.5913)),
      City("Bamenda", LngLat(10.1591, 5.9631)),
      City("Bafoussam", LngLat(10.4203, 5.4781)),
      City("Ngaound\U{E9}r\U{E9}", LngLat(13.5847, 7.3167)),
      City("Bertoua", LngLat(13.6848, 4.5767)),
      City("Ebolowa", LngLat(11.1546, 2.9069)),
      City("Limbe", LngLat(9.2145, 4.0186)) ]
  }

  /** One entry of a feature's `context` list. */
  datatype ContextItem = ContextItem(id: string, text: string)

  datatype ContextField = Region | District | Locality | Neighborhood | Address

  /** The field an id fills, tried in the order region, district, place, neighborhood, address. */
  function FieldOf(id: string): (f: Option<ContextField>)
    ensures f == Some(Region) <==> Text.StartsWith(id, "region")
    ensures f == Some(District) <==> !Text.StartsWith(id, "region") && Text.StartsWith(id, "district")
    ensures f == Some(Locality) <==>
      !Text.StartsWith(id, "region") && !Text.StartsWith(id, "district") && Text.StartsWith(id, "place")
    ensures f == Some(Neighborhood) <==>
      !Text.StartsWith(id, "region") && !Text.StartsWith(id, "district") && !Text.StartsWith(id, "place") &&
      Text.StartsWith(id, "neighborhood")
    ensures f == Some(Address) <==>
      !Text.StartsWith(id, "region") && !Text.StartsWith(id, "district") && !Text.StartsWith(id, "place") &&
      !Text.StartsWith(id, "neighborhood") && Text.StartsWith(id, "address")
    ensures f.None? <==>
      !Text.StartsWith(id, "region") && !Text.StartsWith(id, "district") && !Text.StartsWith(id, "place") &&
      !Text.StartsWith(id, "neighborhood") && !Text.StartsWith(id, "address")
  {
    if Text.StartsWith(id, "region") then Some(Region)
    else if Text.StartsWith(id, "district") then Some(District)
    else if Text.StartsWith(id, "place") then Some(Locality)
    else if Text.StartsWith(id, "neighborhood") then Some(Neighborhood)
    else if Text.StartsWith(id, "address") then Some(Address)
    else None
  }

  /** A Mapbox id such as "place.9876" fills the locality; a country id fills nothing. */
  lemma FieldOfExamples()
    ensures FieldOf("place.9876") == Some(Locality)
    ensures FieldOf("country.4") == None
  {
    assert "place.9876"[..5] == "place";
    assert "place.9876"[0] != "region"[0] && "place.9876"[0] != "district"[0];
    var c := "country.4";
    assert c[0] != "region"[0] && c[0] != "district"[0] && c[0] != "place"[0];
    assert c[0] != "neighborhood"[0] && c[0] != "address"[0];
  }

  /** The record `parseContext` builds from the items seen so far, one item at a time. */
  function ParsedFrom(items: seq<ContextItem>): map<ContextField, string>
  {
    if items == [] then map[]
    else
      var before := ParsedFrom(items[..|items| - 1]);
      var last := items[|items| - 1];
      match FieldOf(last.id)
      case Some(f) => before[f := last.text]
      case None => before
  }

  /** `parseContext`: walks the context list and fills the record. */
  method ParseContext(context: seq<ContextItem>) returns (parsed: map<ContextField, string>)
    ensures parsed == ParsedFrom(context)
    ensures context == [] ==> parsed == map[]
  {
    parsed := map[];
    var i := 0;
    while i < |context|
      invariant 0 <= i <= |context|
      invariant parsed == ParsedFrom(context[..i])
    {
      var item := context[i];
      assert context[..i + 1][..i] == context[..i];
      if Text.StartsWith(item.id, "region") {
        parsed := parsed[Region := item.text];
      } else if Text.StartsWith(item.id, "district") {
        parsed := parsed[District := item.text];
      } else if Text.StartsWith(item.id, "place") {
        parsed := parsed[Locality := item.text];
      } else if Text.StartsWith(item.id, "neighborhood") {
        parsed := parsed[Neighborhood := item.text];
      } else if Text.StartsWith(item.id, "address") {
        parsed := parsed[Address := item.text];
      }
      i := i + 1;
    }
    assert context[..i] == context;
  }

  /** Some item of the list maps to field `f`. */
  predicate Mentions(items: seq<ContextItem>, f: ContextField) {
    exists i :: 0 <= i < |items| && FieldOf(items[i].id) == Some(f)
  }

  /** Item `i` is the last one that maps to field `f`. */
  predicate LastFor(items: seq<ContextItem>, f: ContextField, i: int) {
    0 <= i < |items| && FieldOf(items[i].id) == Some(f) &&
    forall j :: i < j < |items| ==> FieldOf(items[j].id) != Some(f)
  }

  /** Appending an item adds a mention of exactly the field that item fills. */
  lemma MentionsSnoc(init: seq<ContextItem>, last: ContextItem, f: ContextField)
    ensures Mentions(init + [last], f) <==> Mentions(init, f) || FieldOf(last.id) == Some(f)
  {
    var items := init + [last];
    if Mentions(init, f) {
      var i :| 0 <= i < |init| && FieldOf(init[i].id) == Some(f);
      assert items[i] == init[i];
    }
    if Mentions(items, f) && FieldOf(last.id) != Some(f) {
      var i :| 0 <= i < |items| && FieldOf(items[i].id) == Some(f);
      assert i < |init| && init[i] == items[i];
    }
    if FieldOf(last.id) == Some(f) {
      assert items[|init|] == last;
    }
  }

  /** A field is set exactly when some item maps to it. */
  lemma {:induction false} ParsedFieldsAreMentioned(items: seq<ContextItem>, f: ContextField)
    ensures f in ParsedFrom(items) <==> Mentions(items, f)
  {
    if items != [] {
      var init := items[..|items| - 1];
      var last := items[|items| - 1];
      assert items == init + [last];
      ParsedFieldsAreMentioned(init, f);
      MentionsSnoc(init, last, f);
    }
  }

  /**
   * A set field holds the text of the last item that maps to it: later
   * items overwrite earlier ones. The lemma names that item.
   */
  lemma {:induction false} LastMatchWins(items: seq<ContextItem>, f: ContextField) returns (i: nat)
    requires f in ParsedFrom(items)
    ensures LastFor(items, f, i) && ParsedFrom(items)[f] == items[i].text
  {
    var k := |items| - 1;
    if FieldOf(items[k].id) == Some(f) {
      i := k;
    } else {
      var init := items[..k];
      i := LastMatchWins(init, f);
      assert forall j :: i <= j < k ==> items[j] == init[j];
    }
  }

  /** The context as a suggestion exposes it. */
  datatype Context = Context(region: Option<string>, district: Option<string>, locality: Option<string>,
                             neighborhood: Option<string>, address: Option<string>)

  function Lookup(m: map<ContextField, string>, f: ContextField): Option<string> {
    if f in m then Some(m[f]) else None
  }

  function ContextOf(m: map<ContextField, string>): Context {
    Context(Lookup(m, Region), Lookup(m, District), Lookup(m, Locality), Lookup(m, Neighborhood), Lookup(m, Address))
  }

  /** A geocoding feature, restricted to the members the application reads. */
  datatype Feature = Feature(id: string, text: string, placeName: string, center: LngLat,
                             relevance: real, context: Option<seq<ContextItem>>)

  datatype Suggestion = Suggestion(id: string, text: string, placeName: string, coordinates: LngLat,
                                   relevance: real, context: Context)

  /** The query the search sends: the text, the result limit and the country. */
  datatype SearchRequest = SearchRequest(query: string, limit: int, country: string)

  const SearchFailed := "Failed to search addresses"
  const ReverseFailed := "Failed to reverse geocode coordinates"

  function SuggestionOf(f: Feature): (s: Suggestion)
    ensures s.id == f.id && s.text == f.text && s.placeName == f.placeName
    ensures s.coordinates == f.center && s.relevance == f.relevance
    ensures s.context == ContextOf(ParsedFrom(f.context.GetOr([])))
  {
    Suggestion(f.id, f.text, f.placeName, f.center, f.relevance, ContextOf(ParsedFrom(f.context.GetOr([]))))
  }

  /**
   * `searchAddresses`: a blank query yields no suggestions and sends nothing;
   * otherwise one suggestion per returned feature, in order, and any failure
   * becomes "Failed to search addresses". A missing or zero limit means 5.
   */
  function SearchAddresses(query: string, limit: Option<int>, response: Outcome<seq<Feature>>)
    : (r: (Option<SearchRequest>, Outcome<seq<Suggestion>>))
    ensures Text.IsBlank(query) ==> r == (None, Resolved([]))
    ensures !Text.IsBlank(query) ==> r.0 == Some(SearchRequest(query, if TruthyNumber(limit) then limit.value else 5, "CM"))
    ensures !Text.IsBlank(query) && response.Rejected? ==> r.1 == Rejected(SearchFailed)
    ensures !Text.IsBlank(query) && response.Resolved? ==>
      r.1.Resolved? && |r.1.value| == |response.value| &&
      forall i :: 0 <= i < |response.value| ==> r.1.value[i] == SuggestionOf(response.value[i])
  {
    if Text.IsBlank(query) then (None, Resolved([]))
    else
      var request := SearchRequest(query, if TruthyNumber(limit) then limit.value else 5, "CM");
      match response
      case Rejected(_) => (Some(request), Rejected(SearchFailed))
      case Resolved(features) =>
        (Some(request), Resolved(seq(|features|, i requires 0 <= i < |features| => SuggestionOf(features[i]))))
  }

  datatype Validation = Validation(isValid: bool, coordinates: Option<LngLat>, suggestion: Option<string>,
                                   confidence: Option<Confidence>)

  const Invalid := Validation(false, None, None, None)

  /**
   * `validateAddress`: searches with limit 1; valid exactly when the search
   * yields a suggestion, reporting the first one's position, place name and
   * confidence; no suggestion or any failure gives `{isValid: false}`.
   */
  function ValidateAddress(address: string, response: Outcome<seq<Feature>>): (v: Validation)
    ensures v.isValid <==> !Text.IsBlank(address) && response.Resolved? && |response.value| > 0
    ensures !v.isValid ==> v == Invalid
    ensures v.isValid ==>
      v.coordinates == Some(response.value[0].center) && v.suggestion == Some(response.value[0].placeName) &&
      v.confidence == Some(GetConfidence(response.value[0].relevance))
  {
    var (_, result) := SearchAddresses(address, Some(1), response);
    match result
    case Rejected(_) => Invalid
    case Resolved(suggestions) =>
      if |suggestions| == 0 then Invalid
      else Validation(true, Some(suggestions[0].coordinates), Some(suggestions[0].placeName),
                      Some(GetConfidence(suggestions[0].relevance)))
  }

  datatype Components = Components(street: Option<string>, neighborhood: Option<string>, locality: Option<string>,
                                   district: Option<string>, region: Option<string>, country: string)

  datatype GeocodeResult = GeocodeResult(address: string, coordinates: LngLat, confidence: Confidence,
                                         components: Components)

  /**
   * `reverseGeocode`: null when no feature comes back, otherwise built from
   * the first feature with the country fixed to Cameroon; any failure becomes
   * "Failed to reverse geocode coordinates".
   */
  function ReverseGeocode(response: Outcome<seq<Feature>>): (r: Outcome<Option<GeocodeResult>>)
    ensures response.Rejected? ==> r == Rejected(ReverseFailed)
    ensures response.Resolved? ==> r.Resolved? && (r.value.None? <==> response.value == [])
    ensures response.Resolved? && response.value != [] ==>
      var f := response.value[0];
      var g := r.value.value;
      g.address == f.placeName && g.coordinates == f.center && g.confidence == GetConfidence(f.relevance) &&
      g.components.street == Some(f.text) && g.components.country == "Cameroon" &&
      var parsed := ParsedFrom(f.context.GetOr([]));
      g.components.neighborhood == Lookup(parsed, Neighborhood) &&
      g.components.locality == Lookup(parsed, Locality) &&
      g.components.district == Lookup(parsed, District) &&
      g.components.region == Lookup(parsed, Region)
  {
    match response
    case Rejected(_) => Rejected(ReverseFailed)
    case Resolved(features) =>
      if |features| == 0 then Resolved(None)
      else
        var feature := features[0];
        var context := ContextOf(ParsedFrom(feature.context.GetOr([])));
        Resolved(Some(GeocodeResult(feature.placeName, feature.center, GetConfidence(feature.relevance),
          Components(Some(feature.text), context.neighborhood, context.locality, context.district,
                     context.region, "Cameroon"))))
  }
}
