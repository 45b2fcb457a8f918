/** The discovery service (src/lib/server/services/discovery.service.ts):
    reading the city out of a formatted address, naming a place's category,
    rating a business website, and the batch that turns Places search hits
    into leads. The Places API and the website fetch are oracles given as
    parameters. */
module Discovery {
  import opened Wrappers
  import opened Text
  import opened LeadModel
  import opened LeadRepository
  import opened LeadService

  // ---------------------------------------------------------------------
  // City extraction

  /** How many leading characters `\d{4,5}` matches at the start of `s`:
      five digits when there are five, else four, else no match. */
  function PostalPrefixLength(s: string): (n: nat)
    ensures n == 0 || n == 4 || n == 5
    ensures n <= |s| && forall i :: 0 <= i < n ==> IsDigit(s[i])
    ensures n == 0 <==> !(4 <= |s| && IsDigit(s[0]) && IsDigit(s[1]) && IsDigit(s[2]) && IsDigit(s[3]))
    ensures n == 4 ==> |s| == 4 || !IsDigit(s[4])
  {
    if 4 <= |s| && IsDigit(s[0]) && IsDigit(s[1]) && IsDigit(s[2]) && IsDigit(s[3]) then
      if 5 <= |s| && IsDigit(s[4]) then 5 else 4
    else 0
  }

  // `s.replace(/^\d{4,5}\s*/, '')`: a leading postal code and the whitespace
  // after it are dropped; anything else is left alone.
  function StripPostalCode(s: string): (r: string)
    ensures |r| <= |s| && r == s[|s| - |r|..]
    ensures PostalPrefixLength(s) == 0 ==> r == s
    ensures PostalPrefixLength(s) > 0 ==> r == [] || !IsWhitespace(r[0])
  {
    var n := PostalPrefixLength(s);
    if n == 0 then s else TrimStart(s[n..])
  }

  /** `extractCity`: the second-to-last comma-separated piece of the address,
      trimmed, without its postal code; nothing when the address is absent or
      empty, has no comma, or leaves an empty city. */
  function ExtractCity(address: Option<string>): (r: Option<string>)
    ensures r.Some? ==> Truthy(address) && ',' in address.value
    ensures r.Some? ==>
              && r.value != [] && !IsWhitespace(r.value[0]) && !IsWhitespace(r.value[|r.value| - 1])
              && ',' !in r.value
  {
    if !Truthy(address) then None
    else
      var parts := Split(address.value, ',');
      SplitCount(address.value, ',');
      CityOfPieces(parts)
  }

  /** The city of the second-to-last piece, when there are two pieces or
      more and that city is not empty. */
  function CityOfPieces(parts: seq<string>): (r: Option<string>)
    ensures r.Some? ==> |parts| >= 2 && r.value == CityOf(parts[|parts| - 2]) && r.value != []
    ensures r.Some? && (forall p :: p in parts ==> ',' !in p) ==> ',' !in r.value
  {
    if |parts| >= 2 then
      var city := CityOf(parts[|parts| - 2]);
      assert (forall p :: p in parts ==> ',' !in p) ==> ',' !in city by {
        assert parts[|parts| - 2] in parts;
        CityChars(parts[|parts| - 2]);
      }
      if city == [] then None else Some(city)
    else None
  }

  /** One address piece after `trim`, the postal-code strip and `trim` again:
      no whitespace at either end. */
  function CityOf(piece: string): (city: string)
    ensures city == [] || (!IsWhitespace(city[0]) && !IsWhitespace(city[|city| - 1]))
  {
    Trim(StripPostalCode(Trim(piece)))
  }

  /** Every character of a piece's city comes from the piece. */
  lemma CityChars(piece: string)
    ensures forall c :: c in CityOf(piece) ==> c in piece
  {
    var t := Trim(piece);
    var u := StripPostalCode(t);
    var city := Trim(u);
    TrimChars(piece);
    SuffixChars(t, |t| - |u|);
    TrimChars(u);
    forall c | c in city ensures c in piece {
      assert c in u;
      assert c in t[|t| - |u|..];
      assert c in t;
    }
  }

  /** Every character of a suffix comes from the string. */
  lemma SuffixChars(s: string, k: nat)
    requires k <= |s|
    ensures forall c :: c in s[k..] ==> c in s
  {
    forall c | c in s[k..] ensures c in s {
      var i :| 0 <= i < |s[k..]| && s[k..][i] == c;
      assert s[k + i] == c;
    }
  }

  /** For an address written "street, postal-code city, country", with a
      four- or five-digit postal code and no comma inside the parts, the city
      comes back exactly. */
  lemma ExtractCityOfFormatted(street: string, postalCode: string, city: string, country: string)
    requires ',' !in street && ',' !in city && ',' !in country
    requires |postalCode| == 4 || |postalCode| == 5
    requires forall i :: 0 <= i < |postalCode| ==> IsDigit(postalCode[i])
    requires city != [] && !IsWhitespace(city[0]) && !IsWhitespace(city[|city| - 1])
    ensures ExtractCity(Some(street + ", " + postalCode + " " + city + ", " + country)) == Some(city)
  {
    var middle := " " + (postalCode + " " + city);
    assert street + ", " + postalCode + " " + city + ", " + country
        == street + [','] + middle + [','] + (" " + country);
    NoCommaInMiddle(postalCode, city);
    CityOfPostalAndCity(postalCode, city);
    ExtractCityOfThreeParts(street, middle, " " + country);
  }

  /** The city of the piece " postal-code city" is the city. */
  lemma CityOfPostalAndCity(postalCode: string, city: string)
    requires |postalCode| == 4 || |postalCode| == 5
    requires forall i :: 0 <= i < |postalCode| ==> IsDigit(postalCode[i])
    requires city != [] && !IsWhitespace(city[0]) && !IsWhitespace(city[|city| - 1])
    ensures CityOf(" " + (postalCode + " " + city)) == city
  {
    var middle := postalCode + " " + city;
    assert Trim(" " + middle) == middle by {
      assert middle[0] == postalCode[0] && middle[|middle| - 1] == city[|city| - 1];
      TrimPadded(middle);
    }
    StripKnownPostalCode(postalCode, city);
    TrimOfTrimmed(city);
  }

  /** The city of the piece " postal-code" is empty. */
  lemma CityOfPostalOnly(postalCode: string)
    requires |postalCode| == 4 || |postalCode| == 5
    requires forall i :: 0 <= i < |postalCode| ==> IsDigit(postalCode[i])
    ensures CityOf(" " + postalCode) == []
  {
    assert Trim(" " + postalCode) == postalCode by {
      assert IsDigit(postalCode[0]) && IsDigit(postalCode[|postalCode| - 1]);
      TrimPadded(postalCode);
    }
    assert PostalPrefixLength(postalCode) == |postalCode|;
    assert StripPostalCode(postalCode) == [] by {
      assert postalCode[|postalCode|..] == [];
    }
  }

  /** An address of three comma-free parts yields the city of its middle part. */
  lemma ExtractCityOfThreeParts(a: string, b: string, c: string)
    requires ',' !in a && ',' !in b && ',' !in c
    ensures ExtractCity(Some(a + [','] + b + [','] + c)) == if CityOf(b) == [] then None else Some(CityOf(b))
  {
    SplitThreeParts(a, b, c);
    assert (a + [','] + b + [','] + c)[|a|] == ',';
  }

  /** An address of two or more comma-free pieces yields the city of its
      second-to-last piece, and nothing when that piece leaves none. */
  lemma ExtractCityOfPieces(ps: seq<string>)
    requires |ps| >= 2 && forall p :: p in ps ==> ',' !in p
    ensures ExtractCity(Some(Join(ps, ','))) == if CityOf(ps[|ps| - 2]) == [] then None else Some(CityOf(ps[|ps| - 2]))
  {
    JoinOfPieces(ps, ',');
    SplitJoin(ps, ',');
  }

  /** Two or more pieces join into a non-empty string. */
  lemma JoinOfPieces(ps: seq<string>, sep: char)
    requires |ps| >= 2
    ensures Join(ps, sep) != []
  {
    assert Join(ps, sep) == ps[0] + [sep] + Join(ps[1..], sep);
  }

  /** With only two pieces, the city is read from the first one (the street
      side), not from the last. */
  lemma ExtractCityOfTwoPieces(a: string, b: string)
    requires ',' !in a && ',' !in b
    ensures ExtractCity(Some(a + [','] + b)) == if CityOf(a) == [] then None else Some(CityOf(a))
  {
    var ps := [a, b];
    assert ps[1..] == [b];
    assert Join(ps, ',') == a + [','] + b;
    ExtractCityOfPieces(ps);
  }

  /** The Vienna address from the service's own comment. */
  lemma ExtractCityExample()
    ensures ExtractCity(Some("Hauptstra\U{00DF}e 1, 1020 Wien, Austria")) == Some("Wien")
  {
    var street, postalCode, city, country := "Hauptstra\U{00DF}e 1", "1020", "Wien", "Austria";
    assert street + ", " + postalCode + " " + city + ", " + country == "Hauptstra\U{00DF}e 1, 1020 Wien, Austria";
    assert ',' !in street && ',' !in city && ',' !in country;
    assert IsDigit(postalCode[0]) && IsDigit(postalCode[1]) && IsDigit(postalCode[2]) && IsDigit(postalCode[3]);
    assert !IsWhitespace(city[0]) && !IsWhitespace(city[|city| - 1]);
    ExtractCityOfFormatted(street, postalCode, city, country);
  }

  /** A piece holding only a postal code leaves no city. */
  lemma ExtractCityPostalCodeOnly(street: string, postalCode: string, country: string)
    requires ',' !in street && ',' !in country
    requires |postalCode| == 4 || |postalCode| == 5
    requires forall i :: 0 <= i < |postalCode| ==> IsDigit(postalCode[i])
    ensures ExtractCity(Some(street + ", " + postalCode + ", " + country)) == None
  {
    assert street + ", " + postalCode + ", " + country
        == street + [','] + (" " + postalCode) + [','] + (" " + country);
    assert ',' !in " " + postalCode by {
      forall i | 0 <= i < |" " + postalCode| ensures (" " + postalCode)[i] != ',' {
        if i >= 1 {
          assert (" " + postalCode)[i] == postalCode[i - 1];
        }
      }
    }
    CityOfPostalOnly(postalCode);
    ExtractCityOfThreeParts(street, " " + postalCode, " " + country);
  }

  lemma NoCommaInMiddle(postalCode: string, city: string)
    requires forall i :: 0 <= i < |postalCode| ==> IsDigit(postalCode[i])
    requires ',' !in city
    ensures ',' !in " " + (postalCode + " " + city)
  {
    var m := " " + (postalCode + " " + city);
    forall i | 0 <= i < |m| ensures m[i] != ',' {
      if 1 <= i <= |postalCode| {
        assert m[i] == postalCode[i - 1];
      } else if i > |postalCode| + 1 {
        assert m[i] == city[i - |postalCode| - 2];
      }
    }
  }

  /** Splitting "a,b,c" on commas, when the parts hold none, gives the parts. */
  lemma SplitThreeParts(a: string, b: string, c: string)
    requires ',' !in a && ',' !in b && ',' !in c
    ensures Split(a + [','] + b + [','] + c, ',') == [a, b, c]
  {
    var parts := [a, b, c];
    assert parts[1..] == [b, c] && [b, c][1..] == [c];
    assert Join([b, c], ',') == b + [','] + c;
    assert Join(parts, ',') == a + [','] + (b + [','] + c);
    assert a + [','] + (b + [','] + c) == a + [','] + b + [','] + c;
    SplitJoin(parts, ',');
  }

  /** Trimming " " + m, where m has no whitespace at its ends, gives m. */
  lemma TrimPadded(m: string)
    requires m != [] && !IsWhitespace(m[0]) && !IsWhitespace(m[|m| - 1])
    ensures Trim(" " + m) == m
  {
    assert (" " + m)[1..] == m;
  }

  /** The postal-code strip removes exactly a 4- or 5-digit code and the
      blank after it. */
  lemma StripKnownPostalCode(postalCode: string, city: string)
    requires |postalCode| == 4 || |postalCode| == 5
    requires forall i :: 0 <= i < |postalCode| ==> IsDigit(postalCode[i])
    requires city != [] && !IsWhitespace(city[0])
    ensures StripPostalCode(postalCode + " " + city) == city
  {
    var x := postalCode + " " + city;
    assert forall i :: 0 <= i < |postalCode| ==> x[i] == postalCode[i];
    assert x[|postalCode|] == ' ';
    assert PostalPrefixLength(x) == |postalCode|;
    assert x[|postalCode|..] == " " + city;
    assert (" " + city)[1..] == city;
  }

  // ---------------------------------------------------------------------
  // Category mapping

  /** The Places type tags the service recognises and the German category
      label each gets. */
  const TypeLabels: map<string, string> := map[
    "restaurant" := "Gastronomie",
    "cafe" := "Gastronomie",
    "bar" := "Gastronomie",
    "store" := "Einzelhandel",
    "doctor" := "Arzt/Gesundheit",
    "dentist" := "Arzt/Gesundheit",
    "lawyer" := "Rechtsanwalt",
    "accounting" := "Steuerberater",
    "real_estate_agency" := "Immobilien",
    "hair_care" := "Dienstleistung",
    "beauty_salon" := "Dienstleistung",
    "gym" := "Fitness/Sport",
    "lodging" := "Hotel/Unterkunft",
    "car_repair" := "Handwerk/KFZ",
    "plumber" := "Handwerk",
    "electrician" := "Handwerk",
    "painter" := "Handwerk"
  ]

  /** The label of the first recognised tag, scanning in input order. */
  function FirstLabel(types: seq<string>): (r: Option<string>)
    ensures r.None? <==> forall i :: 0 <= i < |types| ==> types[i] !in TypeLabels
    ensures r.Some? ==>
              exists i :: 0 <= i < |types| && types[i] in TypeLabels && r.value == TypeLabels[types[i]]
                          && forall j :: 0 <= j < i ==> types[j] !in TypeLabels
  {
    if types == [] then None
    else if types[0] in TypeLabels then
      assert 0 < |types| && types[0] in TypeLabels;
      Some(TypeLabels[types[0]])
    else
      var r := FirstLabel(types[1..]);
      assert forall i :: 1 <= i < |types| ==> types[i] == types[1..][i - 1];
      r
  }

  /** `mapPlaceTypes`: "other" for missing or empty tags; otherwise the label
      of the first recognised tag; with none recognised, the first tag itself,
      even when it is empty. */
  function MapPlaceTypes(types: Option<seq<string>>): (r: string)
    ensures types.None? || types.value == [] ==> r == "other"
    ensures types.Some? && types.value != [] && (forall i :: 0 <= i < |types.value| ==> types.value[i] !in TypeLabels)
            ==> r == types.value[0]
    ensures forall i :: types.Some? && 0 <= i < |types.value| && types.value[i] in TypeLabels
                        && (forall j :: 0 <= j < i ==> types.value[j] !in TypeLabels)
                        ==> r == TypeLabels[types.value[i]]
  {
    if types.None? || types.value == [] then "other"
    else
      match FirstLabel(types.value)
      case Some(name) => name
      case None => types.value[0]
  }

  /** Every place tag that names a restaurant, doctor, lawyer, estate agent,
      hotel or trade is labelled with a category that earns the lead score's
      type bonus. */
  lemma {:induction false} MappedLabelsEarnTypeBonus(tag: string)
    requires tag in TypeLabels
    requires tag !in {"store", "accounting", "hair_care", "beauty_salon", "gym"}
    ensures TypeBonus(Some(MapPlaceTypes(Some([tag])))) == 2
  {
    SingleTagLabel(tag);
    var k := BonusIndex(tag);
    DiscoveryLabelsEarnTypeBonus(k);
  }

  /** A single recognised tag is labelled by the table. */
  lemma SingleTagLabel(tag: string)
    requires tag in TypeLabels
    ensures MapPlaceTypes(Some([tag])) == TypeLabels[tag]
  {
    assert [tag][0] == tag;
  }

  /** Where a bonus-earning tag's label sits among the bonus labels. */
  function BonusIndex(tag: string): (k: nat)
    requires tag in TypeLabels
    requires tag !in {"store", "accounting", "hair_care", "beauty_salon", "gym"}
    ensures k < |BonusLabels| && BonusLabels[k] == TypeLabels[tag]
  {
    if tag == "restaurant" || tag == "cafe" || tag == "bar" then 0
    else if tag == "doctor" || tag == "dentist" then 1
    else if tag == "lodging" then 2
    else if tag == "car_repair" then 3
    else if tag == "plumber" || tag == "electrician" || tag == "painter" then 4
    else if tag == "lawyer" then 5
    else 6
  }

  // ---------------------------------------------------------------------
  // Website scoring

  /** What fetching a website gives: a network failure or timeout, a response
      that is not ok, or an ok response with its text. */
  datatype FetchOutcome = FetchFailed | NotOk | Body(html: string)

  const ModernSignals: seq<string> := ["react", "vue", "svelte", "next", "nuxt", "tailwind", "bootstrap"]

  const OldSignals: seq<string> := ["<table", "<font", "<marquee", "<center", "dreamweaver"]

  /** How many of the signals occur in the text, each counted once. */
  function SignalCount(text: string, signals: seq<string>): (n: nat)
    ensures n <= |signals|
    ensures n == 0 <==> forall i :: 0 <= i < |signals| ==> !Contains(text, signals[i])
  {
    if signals == [] then 0
    else
      var rest := SignalCount(text, signals[1..]);
      assert forall i :: 1 <= i < |signals| ==> signals[i] == signals[1..][i - 1];
      (if Contains(text, signals[0]) then 1 else 0) + rest
  }

  /** The page heuristic before clamping: 5, plus 1 with a viewport tag or
      minus 2 without, plus 1 for https, plus 1 for any modern framework
      name, minus 1 per old-fashioned marker, minus 1 under 5 KB, minus 1
      over 500 KB (sizes in UTF-16 code units, 1 KB = 1024). */
  function PageScore(url: string, html: string): int
  {
    var lower := ToLower(html);
    var size := Utf16Length(html);
    5
    + (if Contains(html, "viewport") then 1 else -2)
    + (if StartsWith(url, "https") then 1 else 0)
    + (if MentionsAny(html, ModernSignals) then 1 else 0)
    - SignalCount(lower, OldSignals)
    - (if size < 5 * 1024 then 1 else 0)
    - (if size > 500 * 1024 then 1 else 0)
  }

  /** `assessWebsite`: 1 when the site cannot be reached, 2 when it answers
      with an error, otherwise the page heuristic clamped to 1..10, which
      never exceeds 8. */
  function AssessWebsite(url: string, outcome: FetchOutcome): (r: int)
    ensures 1 <= r <= 10
    ensures outcome.FetchFailed? ==> r == 1
    ensures outcome.NotOk? ==> r == 2
    ensures outcome.Body? ==> r <= 8
  {
    match outcome
    case FetchFailed => 1
    case NotOk => 2
    case Body(html) => Clamp(PageScore(url, html), 1, 10)
  }

  /** A reachable page scores the top mark 8 exactly when it has a viewport
      tag, is served over https, names a modern framework, shows no
      old-fashioned marker and is between 5 KB and 500 KB. */
  lemma TopWebsiteScoreIff(url: string, html: string)
    ensures AssessWebsite(url, Body(html)) == 8
            <==> && Contains(html, "viewport") && StartsWith(url, "https")
                 && MentionsAny(html, ModernSignals)
                 && (forall i :: 0 <= i < |OldSignals| ==> !Contains(ToLower(html), OldSignals[i]))
                 && 5 * 1024 <= Utf16Length(html) <= 500 * 1024
  {
  }

  /** A page without a viewport tag scores at most 5, and each missing
      good sign or present bad sign costs a point. */
  lemma NoViewportAtMostFive(url: string, html: string)
    requires !Contains(html, "viewport")
    ensures AssessWebsite(url, Body(html)) <= 5
  {
  }

  // ---------------------------------------------------------------------
  // Places search

  /** What the details call gives for a place: its website and phone number
      when it lists them. */
  datatype PlaceDetails = PlaceDetails(website: Option<string>, phone: Option<string>)

  /** One entry of a text-search response. A `BadPlace` is an entry whose
      fields make processing throw (`failure` is the thrown error's text); the
      per-place catch reports it and the loop goes on. A `NullPlace` is a
      `null` entry: reading its fields throws, the per-place catch throws
      again on `place.name`, and the search-wide catch reports `failure`
      (the second error's text), ending the loop. */
  datatype PlaceEntry =
    | Place(placeId: string, name: string, address: Option<string>, types: Option<seq<string>>,
            rating: Option<real>, location: Option<MetaValue>)
    | BadPlace(name: string, failure: string)
    | NullPlace(failure: string)

  /** What the text search gives: a thrown error (network, JSON), or the
      response's status and result list. */
  datatype SearchOutcome = SearchFailed(failure: string) | SearchReply(status: string, results: Option<seq<PlaceEntry>>)

  /** The outside world the service talks to: the text search (given the
      query text), the details call (given a place id; null on any failure)
      and the website fetch (given a URL). */
  datatype Oracles = Oracles(
    search: string -> SearchOutcome,
    details: string -> Option<PlaceDetails>,
    fetchSite: string -> FetchOutcome)

  /** The result of one search. */
  datatype DiscoveryResult = DiscoveryResult(leads: seq<NewLead>, errors: seq<string>, source: string)

  const PlacesSource: string := "google_places"

  const KeyMissing: string := "Google Places API key not configured"

  /** The metadata a place's lead carries: its place id, and its rating and
      coordinates when the response has them. */
  function PlaceMetadata(p: PlaceEntry): Metadata
    requires p.Place?
  {
    var m := map["placeId" := MetaText(p.placeId)];
    var m := if p.rating.Some? then m["rating" := MetaNumber(p.rating.value)] else m;
    if p.location.Some? then m["location" := p.location.value] else m
  }

  /** The lead a place becomes: its name, website and phone from the details
      call, its address, the city and category read from it, source
      google_places, status new, and a website score that is 0 without a
      website and the site's assessment with one. */
  function LeadOfPlace(p: PlaceEntry, o: Oracles): (d: NewLead)
    requires p.Place?
    ensures d.businessName == p.name && d.source == Some(GooglePlaces) && d.status == Some(New)
    ensures d.websiteScore.Some? && 0 <= d.websiteScore.value <= 10
    ensures d.websiteScore == Some(0) <==> !Truthy(d.websiteUrl.ToOption())
    ensures Truthy(d.websiteUrl.ToOption()) ==>
              d.websiteScore == Some(AssessWebsite(d.websiteUrl.value, o.fetchSite(d.websiteUrl.value)))
  {
    var details := o.details(p.placeId);
    var website := if details.Some? then details.value.website else None;
    var phone := if details.Some? then details.value.phone else None;
    NewLead(
      businessName := p.name,
      contactPerson := None,
      email := None,
      phone := phone,
      websiteUrl := if website.Some? then Present(website.value) else Null,
      websiteScore := Some(if Truthy(website) then AssessWebsite(website.value, o.fetchSite(website.value)) else 0),
      address := p.address,
      city := ExtractCity(p.address),
      postalCode := None,
      country := None,
      businessType := Some(MapPlaceTypes(p.types)),
      source := Some(GooglePlaces),
      status := Some(New),
      estimatedValue := None,
      notes := None,
      tags := None,
      metadata := Some(PlaceMetadata(p)))
  }

  /** The leads of the entries processed without error, in response order. */
  function PlaceLeads(entries: seq<PlaceEntry>, o: Oracles): seq<NewLead>
  {
    if entries == [] then []
    else
      var last := entries[|entries| - 1];
      PlaceLeads(entries[..|entries| - 1], o) + (if last.Place? then [LeadOfPlace(last, o)] else [])
  }

  /** One "Error processing" line per entry that threw, in response order. */
  function PlaceErrors(entries: seq<PlaceEntry>): seq<string>
  {
    if entries == [] then []
    else
      var last := entries[|entries| - 1];
      PlaceErrors(entries[..|entries| - 1])
      + (if last.BadPlace? then ["Error processing " + last.name + ": " + last.failure] else [])
  }

  /** How many entries are processed before the first `null` one (all of
      them when there is none). */
  function FirstNull(entries: seq<PlaceEntry>): (n: nat)
    ensures n <= |entries|
    ensures forall k :: 0 <= k < n ==> !entries[k].NullPlace?
    ensures n < |entries| ==> entries[n].NullPlace?
  {
    if entries == [] || entries[0].NullPlace? then 0 else 1 + FirstNull(entries[1..])
  }

  function SearchFailedLine(failure: string): string
  {
    "Google Places search failed: " + failure
  }

  /** What one search produces: a missing key, a failed search or a status
      other than OK each give no leads and one error; otherwise each entry
      up to the first `null` one gives a lead or an error, and a `null`
      entry adds the search-failed error and drops the entries after it. */
  function SearchOf(query: string, location: string, apiKey: Option<string>, o: Oracles): DiscoveryResult
  {
    if !Truthy(apiKey) then DiscoveryResult([], [KeyMissing], PlacesSource)
    else
      match o.search(query + " in " + location)
      case SearchFailed(e) => DiscoveryResult([], [SearchFailedLine(e)], PlacesSource)
      case SearchReply(status, results) =>
        if status != "OK" then DiscoveryResult([], ["Google Places API error: " + status], PlacesSource)
        else
          var entries := if results.Some? then results.value else [];
          var n := FirstNull(entries);
          var done := entries[..n];
          DiscoveryResult(
            PlaceLeads(done, o),
            PlaceErrors(done) + (if n < |entries| then [SearchFailedLine(entries[n].failure)] else []),
            PlacesSource)
  }

  /** Processing entries one after another is processing each group in turn. */
  lemma {:induction false} PlacesAppend(a: seq<PlaceEntry>, b: seq<PlaceEntry>, o: Oracles)
    ensures PlaceLeads(a + b, o) == PlaceLeads(a, o) + PlaceLeads(b, o)
    ensures PlaceErrors(a + b) == PlaceErrors(a) + PlaceErrors(b)
    decreases |b|
  {
    if b == [] {
      assert a + b == a;
    } else {
      var b' := b[..|b| - 1];
      PlacesAppend(a, b', o);
      assert (a + b)[..|a + b| - 1] == a + b';
    }
  }

  /** Every entry that is not `null` is accounted for once, as a lead or as
      an error; a `null` entry gives neither. */
  lemma {:induction false} PlacesAccounted(entries: seq<PlaceEntry>, o: Oracles)
    ensures |PlaceLeads(entries, o)| + |PlaceErrors(entries)| <= |entries|
    ensures (forall k :: 0 <= k < |entries| ==> !entries[k].NullPlace?) ==>
              |PlaceLeads(entries, o)| + |PlaceErrors(entries)| == |entries|
  {
    if entries != [] {
      PlacesAccounted(entries[..|entries| - 1], o);
    }
  }

  /** In an OK reply, each entry before the first `null` one gives one lead
      or one error; a `null` entry gives the search-failed error as the last
      one, and nothing after it is looked at. */
  lemma SearchAccounted(query: string, location: string, apiKey: Option<string>, o: Oracles)
    requires Truthy(apiKey)
    requires o.search(query + " in " + location).SearchReply? && o.search(query + " in " + location).status == "OK"
    ensures var reply := o.search(query + " in " + location);
            var entries := if reply.results.Some? then reply.results.value else [];
            var r := SearchOf(query, location, apiKey, o);
            && (FirstNull(entries) == |entries| ==> |r.leads| + |r.errors| == |entries|)
            && (FirstNull(entries) < |entries| ==>
                  && |r.leads| + |r.errors| == FirstNull(entries) + 1
                  && r.errors[|r.errors| - 1] == SearchFailedLine(entries[FirstNull(entries)].failure))
  {
    var reply := o.search(query + " in " + location);
    var entries := if reply.results.Some? then reply.results.value else [];
    var n := FirstNull(entries);
    PlacesAccounted(entries[..n], o);
  }

  /** Every lead a search yields comes from a place of the response, is
      google_places and new, and has a website score of 0 exactly when it has
      no website. */
  lemma {:induction false} PlaceLeadsShape(entries: seq<PlaceEntry>, o: Oracles)
    ensures forall d :: d in PlaceLeads(entries, o) ==>
              && (exists p :: p in entries && p.Place? && d == LeadOfPlace(p, o))
              && d.source == Some(GooglePlaces) && d.status == Some(New)
              && (d.websiteScore == Some(0) <==> !Truthy(d.websiteUrl.ToOption()))
  {
    if entries != [] {
      var init := entries[..|entries| - 1];
      PlaceLeadsShape(init, o);
      forall p | p in init ensures p in entries { }
    }
  }

  /** `searchGooglePlaces`: with no key, one error and no leads; a search
      that throws or answers with a status other than OK gives no leads and
      one error; otherwise every entry is processed in order, a failing one
      adding an error and the others a lead each. */
  method SearchGooglePlaces(query: string, location: string, apiKey: Option<string>, o: Oracles)
    returns (r: DiscoveryResult)
    ensures r == SearchOf(query, location, apiKey, o)
    ensures !Truthy(apiKey) ==> r.leads == [] && r.errors == [KeyMissing]
    ensures Truthy(apiKey) && o.search(query + " in " + location).SearchFailed? ==>
              r.leads == [] && r.errors == [SearchFailedLine(o.search(query + " in " + location).failure)]
    ensures Truthy(apiKey) && o.search(query + " in " + location).SearchReply?
            && o.search(query + " in " + location).status != "OK" ==>
              r.leads == [] && r.errors == ["Google Places API error: " + o.search(query + " in " + location).status]
    ensures forall d :: d in r.leads ==>
              && d.source == Some(GooglePlaces) && d.status == Some(New)
              && (d.websiteScore == Some(0) <==> !Truthy(d.websiteUrl.ToOption()))
  {
    if !Truthy(apiKey) {
      return DiscoveryResult([], [KeyMissing], PlacesSource);
    }
    var errors: seq<string> := [];
    var leads: seq<NewLead> := [];
    var response := o.search(query + " in " + location);
    if response.SearchFailed? {
      errors := errors + [SearchFailedLine(response.failure)];
      return DiscoveryResult(leads, errors, PlacesSource);
    }
    if response.status != "OK" {
      errors := errors + ["Google Places API error: " + response.status];
      return DiscoveryResult(leads, errors, PlacesSource);
    }
    var entries := if response.results.Some? then response.results.value else [];
    var i := 0;
    while i < |entries|
      invariant 0 <= i <= FirstNull(entries)
      invariant leads == PlaceLeads(entries[..i], o) && errors == PlaceErrors(entries[..i])
      invariant forall d :: d in leads ==>
                  && d.source == Some(GooglePlaces) && d.status == Some(New)
                  && (d.websiteScore == Some(0) <==> !Truthy(d.websiteUrl.ToOption()))
    {
      var place := entries[i];
      if place.NullPlace? {
        errors := errors + [SearchFailedLine(place.failure)];
        return DiscoveryResult(leads, errors, PlacesSource);
      }
      assert entries[..i + 1][..i] == entries[..i];
      if place.BadPlace? {
        errors := errors + ["Error processing " + place.name + ": " + place.failure];
      } else {
        leads := leads + [LeadOfPlace(place, o)];
      }
      i := i + 1;
    }
    assert entries[..i] == entries;
    r := DiscoveryResult(leads, errors, PlacesSource);
  }

  // ---------------------------------------------------------------------
  // Discovery batch

  /** What a batch reports. */
  datatype DiscoveryRun = DiscoveryRun(totalFound: nat, totalCreated: nat, errors: seq<string>, results: seq<DiscoveryResult>)

  /** `results.reduce((sum, r) => sum + r.leads.length, 0)`. */
  function FoundIn(results: seq<DiscoveryResult>): nat
  {
    if results == [] then 0 else FoundIn(results[..|results| - 1]) + |results[|results| - 1].leads|
  }

  /** `results.flatMap((r) => r.errors)`. */
  function ErrorsIn(results: seq<DiscoveryResult>): seq<string>
  {
    if results == [] then [] else ErrorsIn(results[..|results| - 1]) + results[|results| - 1].errors
  }

  /** The lead as the batch hands it to `createLead`: its metadata gains the
      opportunity score under `leadScore`; nothing else changes. */
  function WithLeadScore(d: NewLead): (e: NewLead)
    ensures e == d.(metadata := e.metadata)
    ensures e.metadata.Some? && "leadScore" in e.metadata.value
    ensures e.metadata.value["leadScore"].MetaNumber?
    ensures 1.0 <= e.metadata.value["leadScore"].number <= 10.0
    ensures d.metadata.Some? ==> forall k :: k in d.metadata.value && k != "leadScore" ==>
              k in e.metadata.value && e.metadata.value[k] == d.metadata.value[k]
  {
    var score := CalculateScore(ScoreInput(d.websiteUrl.ToOption(), d.websiteScore, d.city, d.businessType));
    var meta := if d.metadata.Some? then d.metadata.value else map[];
    d.(metadata := Some(meta["leadScore" := MetaNumber(score as real)]))
  }

  /** `${err}` for what `createLead` throws; a database error's text comes
      from the driver. */
  function CreateErrorText(e: ServiceError, dbMessage: DbError -> string): string
  {
    match e
    case NotFound => "Error: Lead not found"
    case Duplicate(name, city) =>
      "Error: Lead with name \"" + name + "\" already exists in " + (if city.Some? then city.value else "undefined")
    case Db(cause) => dbMessage(cause)
  }

  /** A lead a discovery batch created: google_places, new, and carrying its
      opportunity score. */
  ghost predicate Discovered(l: Lead)
  {
    l.source == GooglePlaces && l.status == New && "leadScore" in l.metadata
  }

  /** The rows from index `from` on are leads a discovery batch created. */
  ghost predicate DiscoveredFrom(rows: seq<Lead>, from: nat)
  {
    forall k :: from <= k < |rows| ==> Discovered(rows[k])
  }

  /** `rows` is `before` followed by `n` rows a discovery batch created. */
  ghost predicate GrewBy(rows: seq<Lead>, before: seq<Lead>, n: nat)
  {
    && |rows| == |before| + n && rows[..|before|] == before
    && DiscoveredFrom(rows, |before|)
  }

  /** Growth in two stages is growth by their sum. */
  lemma GrewChain(rows: seq<Lead>, mid: seq<Lead>, before: seq<Lead>, m: nat, n: nat)
    requires GrewBy(mid, before, n) && GrewBy(rows, mid, m)
    ensures GrewBy(rows, before, n + m)
  {
    assert rows[..|before|] == mid[..|before|] by {
      assert rows[..|mid|][..|before|] == rows[..|before|];
    }
    forall k | |before| <= k < |mid| ensures rows[k] == mid[k] {
      assert rows[..|mid|][k] == rows[k];
    }
  }

  /** `a` is the "Lead created" note `createLead` logs for the row `l`. */
  ghost predicate CreatedNote(a: Activity, l: Lead, now: int)
  {
    a.leadId == l.id && a.kind == Note && a.title == "Lead created" && a.createdAt == now
  }

  /** `acts` is `before` followed by one "Lead created" note per row of
      `rows`, in the same order. */
  ghost predicate NotedFor(acts: seq<Activity>, before: seq<Activity>, rows: seq<Lead>, now: int)
  {
    && |acts| == |before| + |rows| && acts[..|before|] == before
    && forall k :: 0 <= k < |rows| ==> CreatedNote(acts[|before| + k], rows[k], now)
  }

  /** Notes logged in two stages are the notes for both stages' rows. */
  lemma NotedChain(acts: seq<Activity>, mid: seq<Activity>, before: seq<Activity>,
                   rows1: seq<Lead>, rows2: seq<Lead>, now: int)
    requires NotedFor(mid, before, rows1, now) && NotedFor(acts, mid, rows2, now)
    ensures NotedFor(acts, before, rows1 + rows2, now)
  {
    assert acts[..|before|] == mid[..|before|] by {
      assert acts[..|mid|][..|before|] == acts[..|before|];
    }
    forall k | 0 <= k < |rows1| ensures CreatedNote(acts[|before| + k], (rows1 + rows2)[k], now) {
      assert acts[..|mid|][|before| + k] == acts[|before| + k];
    }
    forall k | |rows1| <= k < |rows1| + |rows2|
      ensures CreatedNote(acts[|before| + k], (rows1 + rows2)[k], now)
    {
      assert acts[|mid| + (k - |rows1|)] == acts[|before| + k];
    }
  }

  /** One turn of the creation loop keeps its record of the notes: one per
      row created so far. */
  lemma NotedStep(acts: seq<Activity>, mid: seq<Activity>, before: seq<Activity>,
                  outcomes: seq<Result<Lead, ServiceError>>, r: Result<Lead, ServiceError>, now: int)
    requires NotedFor(mid, before, CreatedRows(outcomes), now)
    requires NotedFor(acts, mid, if r.Ok? then [r.value] else [], now)
    ensures NotedFor(acts, before, CreatedRows(outcomes + [r]), now)
  {
    NotedChain(acts, mid, before, CreatedRows(outcomes), if r.Ok? then [r.value] else [], now);
    assert (outcomes + [r])[..|outcomes|] == outcomes;
  }

  /** What `createLead` answers, one lead after another, for the scored
      leads `ds` when the store starts with `rows` and next key `next`: each
      created row is there for the leads after it. */
  function Creations(rows: seq<Lead>, next: LeadId, ds: seq<NewLead>, now: int): (os: seq<Result<Lead, ServiceError>>)
    ensures |os| == |ds|
    decreases |ds|
  {
    if ds == [] then []
    else
      var o := CreateOutcome(rows, next, WithLeadScore(ds[0]), now);
      [o] + Creations(if o.Ok? then rows + [o.value] else rows, if o.Ok? then next + 1 else next, ds[1..], now)
  }

  /** The rows the answers `os` created, in order. */
  function CreatedRows(os: seq<Result<Lead, ServiceError>>): seq<Lead>
  {
    if os == [] then []
    else CreatedRows(os[..|os| - 1]) + (if os[|os| - 1].Ok? then [os[|os| - 1].value] else [])
  }

  /** The line the batch logs when `createLead` refuses `d` with `e`. */
  function FailureLine(d: NewLead, e: ServiceError, dbMessage: DbError -> string): string
  {
    "Failed to create lead " + d.businessName + ": " + CreateErrorText(e, dbMessage)
  }

  /** One "Failed to create lead" line per lead of `ds` whose answer in `os`
      is a refusal, in order; with the rows created, one per lead. */
  function FailureLines(ds: seq<NewLead>, os: seq<Result<Lead, ServiceError>>, dbMessage: DbError -> string)
    : (lines: seq<string>)
    requires |os| == |ds|
    ensures |lines| + |CreatedRows(os)| == |ds|
  {
    if ds == [] then []
    else
      var n := |ds| - 1;
      FailureLines(ds[..n], os[..n], dbMessage)
      + (if os[n].Err? then [FailureLine(ds[n], os[n].error, dbMessage)] else [])
  }

  /** Search result `s` as the batch reports it once its leads got the
      answers `os`. */
  function WithFailures(s: DiscoveryResult, os: seq<Result<Lead, ServiceError>>, dbMessage: DbError -> string)
    : DiscoveryResult
    requires |os| == |s.leads|
  {
    s.(errors := s.errors + FailureLines(s.leads, os, dbMessage))
  }

  /** One more answer adds its row, or its failure line, at the end. */
  lemma CreationStep(ds: seq<NewLead>, os: seq<Result<Lead, ServiceError>>, j: nat, o: Result<Lead, ServiceError>,
                     dbMessage: DbError -> string)
    requires j < |ds| && |os| == j
    ensures CreatedRows(os + [o]) == CreatedRows(os) + (if o.Ok? then [o.value] else [])
    ensures FailureLines(ds[..j + 1], os + [o], dbMessage) == FailureLines(ds[..j], os, dbMessage)
              + (if o.Err? then [FailureLine(ds[j], o.error, dbMessage)] else [])
  {
    assert (os + [o])[..j] == os;
    assert ds[..j + 1][..j] == ds[..j];
  }

  /** Answering the remaining leads is answering the next one and then the
      rest against the store that answer leaves. */
  lemma CreationsStep(done: seq<Result<Lead, ServiceError>>, rows: seq<Lead>, next: LeadId, ds: seq<NewLead>, j: nat,
                      now: int, o: Result<Lead, ServiceError>, all: seq<Result<Lead, ServiceError>>)
    requires j < |ds| && done + Creations(rows, next, ds[j..], now) == all
    requires o == CreateOutcome(rows, next, WithLeadScore(ds[j]), now)
    ensures (done + [o]) + Creations(if o.Ok? then rows + [o.value] else rows, if o.Ok? then next + 1 else next,
                                     ds[j + 1..], now) == all
  {
    var tail := ds[j..];
    assert tail[0] == ds[j] && tail[1..] == ds[j + 1..];
    CreationsHead(rows, next, tail, now);
    var rest := Creations(if o.Ok? then rows + [o.value] else rows, if o.Ok? then next + 1 else next, ds[j + 1..], now);
    ConcatAssoc(done, [o], rest);
  }

  lemma CreationsHead(rows: seq<Lead>, next: LeadId, ds: seq<NewLead>, now: int)
    requires ds != []
    ensures var o := CreateOutcome(rows, next, WithLeadScore(ds[0]), now);
            Creations(rows, next, ds, now)
            == [o] + Creations(if o.Ok? then rows + [o.value] else rows, if o.Ok? then next + 1 else next, ds[1..], now)
  {
  }

  /** One turn of the creation loop keeps its record of the store: the rows
      created so far follow the rows it started with. */
  lemma RowsStep(rows0: seq<Lead>, outcomes: seq<Result<Lead, ServiceError>>, before: seq<Lead>,
                 r: Result<Lead, ServiceError>, rows: seq<Lead>)
    requires before == rows0 + CreatedRows(outcomes)
    requires rows == before + (if r.Ok? then [r.value] else [])
    ensures rows == rows0 + CreatedRows(outcomes + [r])
    ensures |CreatedRows(outcomes + [r])| == |CreatedRows(outcomes)| + (if r.Ok? then 1 else 0)
  {
    assert (outcomes + [r])[..|outcomes|] == outcomes;
  }

  /** One turn of the creation loop keeps its record of the lines logged:
      one per refusal so far. */
  lemma ErrorsStep(ds: seq<NewLead>, dbMessage: DbError -> string, j: nat, outcomes: seq<Result<Lead, ServiceError>>,
                   errors0: seq<string>, errors: seq<string>, r: Result<Lead, ServiceError>)
    requires j < |ds| && |outcomes| == j
    requires errors == errors0 + FailureLines(ds[..j], outcomes, dbMessage)
    ensures errors + (if r.Ok? then [] else [FailureLine(ds[j], r.error, dbMessage)])
            == errors0 + FailureLines(ds[..j + 1], outcomes + [r], dbMessage)
  {
    CreationStep(ds, outcomes, j, r, dbMessage);
    ConcatAssoc(errors0, FailureLines(ds[..j], outcomes, dbMessage),
                if r.Ok? then [] else [FailureLine(ds[j], r.error, dbMessage)]);
  }

  lemma ConcatAssoc<T>(a: seq<T>, b: seq<T>, c: seq<T>)
    ensures (a + b) + c == a + (b + c)
  {
  }

  /** One turn of the creation loop keeps its record of the answers: those
      given and those still to come make up the whole. */
  lemma AnswersStep(ds: seq<NewLead>, now: int, rows0: seq<Lead>, next0: LeadId, j: nat,
                    outcomes: seq<Result<Lead, ServiceError>>, before: seq<Lead>, nextBefore: LeadId,
                    r: Result<Lead, ServiceError>, rows: seq<Lead>, next: LeadId)
    requires j < |ds|
    requires outcomes + Creations(before, nextBefore, ds[j..], now) == Creations(rows0, next0, ds, now)
    requires r == CreateOutcome(before, nextBefore, WithLeadScore(ds[j]), now)
    requires rows == before + (if r.Ok? then [r.value] else []) && next == nextBefore + (if r.Ok? then 1 else 0)
    ensures (outcomes + [r]) + Creations(rows, next, ds[j + 1..], now) == Creations(rows0, next0, ds, now)
  {
    CreationsStep(outcomes, before, nextBefore, ds, j, now, r, Creations(rows0, next0, ds, now));
    if r.Ok? {
      assert rows == before + [r.value];
    } else {
      assert rows == before + [] == before;
    }
  }

  /** What the creation loop knows after `j` leads of `result`, starting
      from the rows `rows0` and next key `next0`: `outcomes` are the answers
      so far and the rest follow from `rows` and `next`; `out` logs one line
      per refusal; `created` rows were added. */
  ghost predicate Found(result: DiscoveryResult, dbMessage: DbError -> string, now: int, rows0: seq<Lead>, next0: LeadId,
                        j: nat, outcomes: seq<Result<Lead, ServiceError>>, out: DiscoveryResult, created: nat,
                        rows: seq<Lead>, next: LeadId)
  {
    && j <= |result.leads| && |outcomes| == j
    && outcomes + Creations(rows, next, result.leads[j..], now) == Creations(rows0, next0, result.leads, now)
    && out == result.(errors := result.errors + FailureLines(result.leads[..j], outcomes, dbMessage))
    && created == |CreatedRows(outcomes)|
    && rows == rows0 + CreatedRows(outcomes) && next == next0 + created
  }

  /** Before the loop, nothing is answered, logged or created. */
  lemma FoundStart(result: DiscoveryResult, dbMessage: DbError -> string, now: int, rows0: seq<Lead>, next0: LeadId)
    ensures Found(result, dbMessage, now, rows0, next0, 0, [], result, 0, rows0, next0)
  {
    assert result.leads[0..] == result.leads;
    assert result.errors + [] == result.errors;
  }

  /** After the loop, the answers are the whole and the log is complete. */
  lemma FoundEnd(result: DiscoveryResult, dbMessage: DbError -> string, now: int, rows0: seq<Lead>, next0: LeadId,
                 outcomes: seq<Result<Lead, ServiceError>>, out: DiscoveryResult, created: nat,
                 rows: seq<Lead>, next: LeadId)
    requires Found(result, dbMessage, now, rows0, next0, |result.leads|, outcomes, out, created, rows, next)
    ensures outcomes == Creations(rows0, next0, result.leads, now)
    ensures out == WithFailures(result, outcomes, dbMessage)
  {
    assert result.leads[|result.leads|..] == [];
    assert result.leads[..|result.leads|] == result.leads;
  }

  /** Every row the batch creates from found leads is a discovered lead. */
  lemma {:induction false} CreationsDiscovered(rows: seq<Lead>, next: LeadId, ds: seq<NewLead>, now: int)
    requires forall d :: d in ds ==> d.source == Some(GooglePlaces) && d.status == Some(New)
    ensures forall l :: l in CreatedRows(Creations(rows, next, ds, now)) ==> Discovered(l)
    decreases |ds|
  {
    if ds != [] {
      var o := CreateOutcome(rows, next, WithLeadScore(ds[0]), now);
      var rows', next' := if o.Ok? then rows + [o.value] else rows, if o.Ok? then next + 1 else next;
      CreationsHead(rows, next, ds, now);
      assert forall d :: d in ds[1..] ==> d in ds;
      CreationsDiscovered(rows', next', ds[1..], now);
      assert ds[0] in ds;
      CreatedRowsCons(o, Creations(rows', next', ds[1..], now));
    }
  }

  /** The rows created by a first answer and then the rest. */
  lemma {:induction false} CreatedRowsCons(o: Result<Lead, ServiceError>, os: seq<Result<Lead, ServiceError>>)
    ensures CreatedRows([o] + os) == (if o.Ok? then [o.value] else []) + CreatedRows(os)
    decreases |os|
  {
    if os != [] {
      var n := |os| - 1;
      assert ([o] + os)[..|os|] == [o] + os[..n];
      CreatedRowsCons(o, os[..n]);
    }
  }

  /** When the loop is done, the store grew by the rows it created. */
  lemma FoundGrew(result: DiscoveryResult, dbMessage: DbError -> string, now: int, rows0: seq<Lead>, next0: LeadId,
                  outcomes: seq<Result<Lead, ServiceError>>, out: DiscoveryResult, created: nat,
                  rows: seq<Lead>, next: LeadId)
    requires forall d :: d in result.leads ==> d.source == Some(GooglePlaces) && d.status == Some(New)
    requires Found(result, dbMessage, now, rows0, next0, |result.leads|, outcomes, out, created, rows, next)
    ensures GrewBy(rows, rows0, created)
  {
    FoundEnd(result, dbMessage, now, rows0, next0, outcomes, out, created, rows, next);
    CreationsDiscovered(rows0, next0, result.leads, now);
    assert rows[..|rows0|] == rows0;
    forall k | |rows0| <= k < |rows| ensures Discovered(rows[k]) {
      assert rows[k] == CreatedRows(outcomes)[k - |rows0|];
    }
  }

  /** One turn of the creation loop keeps what it knows. */
  lemma FoundStep(result: DiscoveryResult, dbMessage: DbError -> string, now: int, rows0: seq<Lead>, next0: LeadId,
                  j: nat, outcomes: seq<Result<Lead, ServiceError>>, out: DiscoveryResult, created: nat,
                  before: seq<Lead>, nextBefore: LeadId, r: Result<Lead, ServiceError>, rows: seq<Lead>, next: LeadId)
    requires j < |result.leads| && Found(result, dbMessage, now, rows0, next0, j, outcomes, out, created, before, nextBefore)
    requires r == CreateOutcome(before, nextBefore, WithLeadScore(result.leads[j]), now)
    requires rows == before + (if r.Ok? then [r.value] else []) && next == nextBefore + (if r.Ok? then 1 else 0)
    ensures Found(result, dbMessage, now, rows0, next0, j + 1, outcomes + [r],
                  if r.Ok? then out else out.(errors := out.errors + [FailureLine(result.leads[j], r.error, dbMessage)]),
                  created + (if r.Ok? then 1 else 0), rows, next)
  {
    AnswersStep(result.leads, now, rows0, next0, j, outcomes, before, nextBefore, r, rows, next);
    RowsStep(rows0, outcomes, before, r, rows);
    ErrorsStep(result.leads, dbMessage, j, outcomes, result.errors, out.errors, r);
  }

  /** The batch's report of a search keeps its leads and its own errors and
      adds at most one line per lead. */
  lemma WithFailuresExtends(s: DiscoveryResult, os: seq<Result<Lead, ServiceError>>, dbMessage: DbError -> string)
    requires |os| == |s.leads|
    ensures ExtendsSearch(WithFailures(s, os, dbMessage), s)
    ensures |CreatedRows(os)| + (|WithFailures(s, os, dbMessage).errors| - |s.errors|) == |s.leads|
  {
    var r := WithFailures(s, os, dbMessage);
    assert r.errors[..|s.errors|] == s.errors;
  }

  /** `createLead` on a found lead with its score added: a created row is a
      discovered lead appended to the store; a refusal leaves the rows alone. */
  method CreateScored(store: LeadStore, lead: NewLead, now: int) returns (r: Result<Lead, ServiceError>)
    requires store.Valid()
    requires lead.source == Some(GooglePlaces) && lead.status == Some(New)
    modifies store
    ensures store.Valid()
    ensures r == CreateOutcome(old(store.leads), old(store.nextLeadId), WithLeadScore(lead), now)
    ensures store.leads == old(store.leads) + (if r.Ok? then [r.value] else [])
    ensures store.nextLeadId == old(store.nextLeadId) + (if r.Ok? then 1 else 0)
    ensures GrewBy(store.leads, old(store.leads), if r.Ok? then 1 else 0)
    ensures NotedFor(store.activities, old(store.activities), if r.Ok? then [r.value] else [], now)
  {
    r := CreateLead(store, WithLeadScore(lead), now);
    assert store.leads[..|old(store.leads)|] == old(store.leads);
    if r.Ok? {
      assert CreatedNote(store.activities[|old(store.activities)| + 0], r.value, now);
    } else {
      assert store.activities[..|old(store.activities)|] == old(store.activities);
    }
  }

  /** The inner loop of `runDiscovery`: hands each lead of one search result
      to `createLead`, counting the ones created and appending a "Failed to
      create lead" line to the result's errors for each one refused. */
  method CreateFound(store: LeadStore, result: DiscoveryResult, dbMessage: DbError -> string, now: int)
    returns (out: DiscoveryResult, created: nat, ghost outcomes: seq<Result<Lead, ServiceError>>)
    requires store.Valid()
    requires forall d :: d in result.leads ==> d.source == Some(GooglePlaces) && d.status == Some(New)
    modifies store
    ensures store.Valid()
    ensures outcomes == Creations(old(store.leads), old(store.nextLeadId), result.leads, now)
    ensures out == WithFailures(result, outcomes, dbMessage)
    ensures created == |CreatedRows(outcomes)|
    ensures store.leads == old(store.leads) + CreatedRows(outcomes)
    ensures store.nextLeadId == old(store.nextLeadId) + created
    ensures GrewBy(store.leads, old(store.leads), created)
    ensures NotedFor(store.activities, old(store.activities), CreatedRows(outcomes), now)
  {
    out, created, outcomes := result, 0, [];
    assert store.activities[..|old(store.activities)|] == old(store.activities);
    var j := 0;
    FoundStart(result, dbMessage, now, store.leads, store.nextLeadId);
    while j < |result.leads|
      invariant Found(result, dbMessage, now, old(store.leads), old(store.nextLeadId), j, outcomes, out, created,
                      store.leads, store.nextLeadId)
      invariant store.Valid()
      invariant NotedFor(store.activities, old(store.activities), CreatedRows(outcomes), now)
    {
      var lead := result.leads[j];
      assert lead in result.leads;
      ghost var before, nextBefore, actsBefore := store.leads, store.nextLeadId, store.activities;
      var r := CreateScored(store, lead, now);
      NotedStep(store.activities, actsBefore, old(store.activities), outcomes, r, now);
      FoundStep(result, dbMessage, now, old(store.leads), old(store.nextLeadId), j, outcomes, out, created,
                before, nextBefore, r, store.leads, store.nextLeadId);
      if r.Ok? {
        created := created + 1;
      } else {
        out := out.(errors := out.errors + [FailureLine(lead, r.error, dbMessage)]);
      }
      outcomes := outcomes + [r];
      j := j + 1;
    }
    FoundEnd(result, dbMessage, now, old(store.leads), old(store.nextLeadId), outcomes, out, created,
             store.leads, store.nextLeadId);
    FoundGrew(result, dbMessage, now, old(store.leads), old(store.nextLeadId), outcomes, out, created,
              store.leads, store.nextLeadId);
  }

  /** `result` is what the batch leaves of search result `s`: the same
      leads, and the search's own errors followed by at most one creation
      failure per lead. */
  predicate ExtendsSearch(result: DiscoveryResult, s: DiscoveryResult)
  {
    && result.leads == s.leads && result.source == s.source
    && |s.errors| <= |result.errors| <= |s.errors| + |s.leads|
    && result.errors[..|s.errors|] == s.errors
  }

  /** One query of the batch: the search, then the creation of its leads
      against the store as it is. */
  method DiscoverQuery(store: LeadStore, query: string, location: string, apiKey: Option<string>,
                       o: Oracles, dbMessage: DbError -> string, now: int)
    returns (result: DiscoveryResult, created: nat, ghost outcomes: seq<Result<Lead, ServiceError>>)
    requires store.Valid()
    modifies store
    ensures store.Valid()
    ensures outcomes == Creations(old(store.leads), old(store.nextLeadId), SearchOf(query, location, apiKey, o).leads, now)
    ensures result == WithFailures(SearchOf(query, location, apiKey, o), outcomes, dbMessage)
    ensures created == |CreatedRows(outcomes)|
    ensures store.leads == old(store.leads) + CreatedRows(outcomes)
    ensures store.nextLeadId == old(store.nextLeadId) + created
    ensures NotedFor(store.activities, old(store.activities), CreatedRows(outcomes), now)
  {
    var searched := SearchGooglePlaces(query, location, apiKey, o);
    result, created, outcomes := CreateFound(store, searched, dbMessage, now);
  }

  /** The searches of a batch's queries, in order. */
  function Searches(queries: seq<string>, location: string, apiKey: Option<string>, o: Oracles)
    : seq<DiscoveryResult>
  {
    seq(|queries|, i requires 0 <= i < |queries| => SearchOf(queries[i], location, apiKey, o))
  }

  /** How many errors the searches `ss` report by themselves. */
  function ErrorCount(ss: seq<DiscoveryResult>): nat
  {
    if ss == [] then 0 else ErrorCount(ss[..|ss| - 1]) + |ss[|ss| - 1].errors|
  }

  /** The rows the batch created, query after query. */
  function AllCreated(outcomes: seq<seq<Result<Lead, ServiceError>>>): seq<Lead>
  {
    if outcomes == [] then [] else AllCreated(outcomes[..|outcomes| - 1]) + CreatedRows(outcomes[|outcomes| - 1])
  }

  /** How `createLead` answers a list of leads, one after another, from a
      store with the given rows and next key. */
  type Creator = (seq<Lead>, LeadId, seq<NewLead>) -> seq<Result<Lead, ServiceError>>

  /** `create` gives one answer per lead. */
  ghost predicate OneAnswerEach(create: Creator)
  {
    forall rows: seq<Lead>, next: LeadId, ds: seq<NewLead> :: |create(rows, next, ds)| == |ds|
  }

  /** Every row `create` adds for google_places leads with status new is a
      discovered lead. */
  ghost predicate CreatesDiscovered(create: Creator)
  {
    forall rows: seq<Lead>, next: LeadId, ds: seq<NewLead>, l ::
      FoundList(ds) && l in CreatedRows(create(rows, next, ds)) ==> Discovered(l)
  }

  /** The leads `ds` are google_places and new. */
  ghost predicate FoundList(ds: seq<NewLead>)
  {
    forall d :: d in ds ==> d.source == Some(GooglePlaces) && d.status == Some(New)
  }

  /** `createLead` at time `now`. */
  function CreatorAt(now: int): (create: Creator)
    ensures OneAnswerEach(create)
  {
    (rows: seq<Lead>, next: LeadId, ds: seq<NewLead>) => Creations(rows, next, ds, now)
  }

  lemma CreatorAtIs(now: int, rows: seq<Lead>, next: LeadId, ds: seq<NewLead>)
    ensures CreatorAt(now)(rows, next, ds) == Creations(rows, next, ds, now)
  {
  }

  /** The rows `createLead` adds for found leads are discovered leads. */
  lemma CreatorAtDiscovers(now: int)
    ensures CreatesDiscovered(CreatorAt(now))
  {
    forall rows: seq<Lead>, next: LeadId, ds: seq<NewLead>, l | FoundList(ds) && l in CreatedRows(CreatorAt(now)(rows, next, ds))
      ensures Discovered(l)
    {
      CreationsDiscovered(rows, next, ds, now);
    }
  }

  /** The answers `create` gives to the leads of the searches `ss`, search
      after search, from a store with rows `rows0` and next key `next0`: the
      leads of each search are answered against the store the earlier
      searches left, which holds the rows they created. */
  function Answers(rows0: seq<Lead>, next0: LeadId, ss: seq<DiscoveryResult>, create: Creator)
    : (outs: seq<seq<Result<Lead, ServiceError>>>)
    requires OneAnswerEach(create)
    ensures Answered(ss, outs)
    decreases |ss|
  {
    if ss == [] then []
    else
      var n := |ss| - 1;
      var before := Answers(rows0, next0, ss[..n], create);
      var created := AllCreated(before);
      before + [create(rows0 + created, next0 + |created|, ss[n].leads)]
  }

  /** `outs` holds one answer per lead of each search of `ss`. */
  predicate Answered(ss: seq<DiscoveryResult>, outs: seq<seq<Result<Lead, ServiceError>>>)
  {
    |outs| == |ss| && forall i :: 0 <= i < |ss| ==> |outs[i]| == |ss[i].leads|
  }

  /** The results the batch reports: each search with one "Failed to create
      lead" line per lead `createLead` refused. */
  function Reports(ss: seq<DiscoveryResult>, outs: seq<seq<Result<Lead, ServiceError>>>,
                   dbMessage: DbError -> string): (rs: seq<DiscoveryResult>)
    requires Answered(ss, outs)
    ensures |rs| == |ss|
  {
    if ss == [] then []
    else
      var n := |ss| - 1;
      Reports(ss[..n], outs[..n], dbMessage) + [WithFailures(ss[n], outs[n], dbMessage)]
  }

  /** Each reported result is its search with the lines of its refusals. */
  lemma {:induction false} ReportsAt(ss: seq<DiscoveryResult>, outs: seq<seq<Result<Lead, ServiceError>>>,
                                     dbMessage: DbError -> string, i: nat)
    requires Answered(ss, outs) && i < |ss|
    ensures Reports(ss, outs, dbMessage)[i] == WithFailures(ss[i], outs[i], dbMessage)
    decreases |ss|
  {
    var n := |ss| - 1;
    var rs := Reports(ss[..n], outs[..n], dbMessage);
    assert Reports(ss, outs, dbMessage) == rs + [WithFailures(ss[n], outs[n], dbMessage)];
    if i < n {
      ReportsAt(ss[..n], outs[..n], dbMessage, i);
      assert ss[..n][i] == ss[i] && outs[..n][i] == outs[i];
    }
  }

  /** Every result the batch reports extends its search: the same leads, the
      search's own errors first, and at most one more line per lead. */
  lemma ReportsExtend(ss: seq<DiscoveryResult>, outs: seq<seq<Result<Lead, ServiceError>>>,
                      dbMessage: DbError -> string)
    requires Answered(ss, outs)
    ensures forall i :: 0 <= i < |ss| ==> ExtendsSearch(Reports(ss, outs, dbMessage)[i], ss[i])
  {
    forall i | 0 <= i < |ss| ensures ExtendsSearch(Reports(ss, outs, dbMessage)[i], ss[i]) {
      ReportsAt(ss, outs, dbMessage, i);
      WithFailuresExtends(ss[i], outs[i], dbMessage);
    }
  }

  /** The batch's totals: every lead found is either created or has its
      failure line, so the rows created never outnumber the leads found, and
      created rows plus errors make up the leads found plus the searches' own
      errors. */
  lemma {:induction false} ReportsCount(ss: seq<DiscoveryResult>, outs: seq<seq<Result<Lead, ServiceError>>>,
                                        dbMessage: DbError -> string)
    requires Answered(ss, outs)
    ensures |AllCreated(outs)| <= FoundIn(Reports(ss, outs, dbMessage))
    ensures |AllCreated(outs)| + |ErrorsIn(Reports(ss, outs, dbMessage))|
            == FoundIn(Reports(ss, outs, dbMessage)) + ErrorCount(ss)
    decreases |ss|
  {
    if ss != [] {
      var n := |ss| - 1;
      ReportsCount(ss[..n], outs[..n], dbMessage);
      var rs := Reports(ss, outs, dbMessage);
      assert rs[..n] == Reports(ss[..n], outs[..n], dbMessage);
      WithFailuresExtends(ss[n], outs[n], dbMessage);
    }
  }

  /** Without a key every search is the one "not configured" error, so the
      batch finds and creates nothing and reports that error once per query. */
  lemma {:induction false} ReportsUnkeyed(ss: seq<DiscoveryResult>, outs: seq<seq<Result<Lead, ServiceError>>>,
                                          dbMessage: DbError -> string)
    requires Answered(ss, outs)
    requires forall i :: 0 <= i < |ss| ==> ss[i] == DiscoveryResult([], [KeyMissing], PlacesSource)
    ensures FoundIn(Reports(ss, outs, dbMessage)) == 0 && AllCreated(outs) == []
    ensures ErrorsIn(Reports(ss, outs, dbMessage)) == seq(|ss|, _ => KeyMissing)
    decreases |ss|
  {
    if ss != [] {
      var n := |ss| - 1;
      ReportsUnkeyed(ss[..n], outs[..n], dbMessage);
      var rs := Reports(ss, outs, dbMessage);
      assert rs[..n] == Reports(ss[..n], outs[..n], dbMessage);
      assert outs[n] == [];
      assert seq(n + 1, _ => KeyMissing) == seq(n, _ => KeyMissing) + [KeyMissing];
    }
  }

  /** With no key, a batch of any queries finds and creates nothing and
      reports "Google Places API key not configured" once per query. */
  lemma UnkeyedBatch(queries: seq<string>, location: string, apiKey: Option<string>, o: Oracles,
                     rows0: seq<Lead>, next0: LeadId, dbMessage: DbError -> string, now: int)
    requires !Truthy(apiKey)
    ensures var ss := Searches(queries, location, apiKey, o);
            var outs := Answers(rows0, next0, ss, CreatorAt(now));
            && FoundIn(Reports(ss, outs, dbMessage)) == 0 && AllCreated(outs) == []
            && ErrorsIn(Reports(ss, outs, dbMessage)) == seq(|queries|, _ => KeyMissing)
  {
    var ss := Searches(queries, location, apiKey, o);
    ReportsUnkeyed(ss, Answers(rows0, next0, ss, CreatorAt(now)), dbMessage);
  }

  /** Every lead a search yields is google_places and new. */
  lemma SearchLeadsShape(query: string, location: string, apiKey: Option<string>, o: Oracles)
    ensures forall d :: d in SearchOf(query, location, apiKey, o).leads ==>
              d.source == Some(GooglePlaces) && d.status == Some(New)
  {
    if Truthy(apiKey) {
      var reply := o.search(query + " in " + location);
      if reply.SearchReply? && reply.status == "OK" {
        var entries := if reply.results.Some? then reply.results.value else [];
        PlaceLeadsShape(entries[..FirstNull(entries)], o);
      }
    }
  }

  /** The leads of every search in `ss` are google_places and new. */
  ghost predicate FoundLeads(ss: seq<DiscoveryResult>)
  {
    forall i :: 0 <= i < |ss| ==> FoundList(ss[i].leads)
  }

  /** Every lead a batch's searches yield is google_places and new. */
  lemma SearchesFound(queries: seq<string>, location: string, apiKey: Option<string>, o: Oracles)
    ensures FoundLeads(Searches(queries, location, apiKey, o))
  {
    var ss := Searches(queries, location, apiKey, o);
    forall i | 0 <= i < |ss| ensures FoundList(ss[i].leads) {
      SearchLeadsShape(queries[i], location, apiKey, o);
    }
  }

  /** Every row created while answering found leads is a discovered lead. */
  lemma {:induction false} AnswersDiscovered(rows0: seq<Lead>, next0: LeadId, ss: seq<DiscoveryResult>, create: Creator)
    requires OneAnswerEach(create) && CreatesDiscovered(create) && FoundLeads(ss)
    ensures forall l :: l in AllCreated(Answers(rows0, next0, ss, create)) ==> Discovered(l)
    decreases |ss|
  {
    if ss != [] {
      var n := |ss| - 1;
      AnswersDiscovered(rows0, next0, ss[..n], create);
      var before := Answers(rows0, next0, ss[..n], create);
      var os := create(rows0 + AllCreated(before), next0 + |AllCreated(before)|, ss[n].leads);
      AllCreatedSnoc(before, os);
      assert FoundList(ss[n].leads);
    }
  }

  /** Appending discovered leads grows the rows by them. */
  lemma GrewByCreated(rows: seq<Lead>, created: seq<Lead>)
    requires forall l :: l in created ==> Discovered(l)
    ensures GrewBy(rows + created, rows, |created|)
  {
    var grown := rows + created;
    assert grown[..|rows|] == rows;
    forall k | |rows| <= k < |grown| ensures Discovered(grown[k]) {
      assert grown[k] == created[k - |rows|];
    }
  }

  /** A whole batch grows the store by discovered leads only: the rows
      before stay in place and every created row is google_places and new,
      with its opportunity score. */
  lemma BatchGrew(queries: seq<string>, location: string, apiKey: Option<string>, o: Oracles,
                  rows0: seq<Lead>, next0: LeadId, now: int)
    ensures var created := AllCreated(Answers(rows0, next0, Searches(queries, location, apiKey, o), CreatorAt(now)));
            GrewBy(rows0 + created, rows0, |created|)
  {
    var ss := Searches(queries, location, apiKey, o);
    SearchesFound(queries, location, apiKey, o);
    CreatorAtDiscovers(now);
    AnswersDiscovered(rows0, next0, ss, CreatorAt(now));
    GrewByCreated(rows0, AllCreated(Answers(rows0, next0, ss, CreatorAt(now))));
  }

  lemma SnocPrefix<T>(a: seq<T>, x: T, i: nat)
    requires i <= |a|
    ensures (a + [x])[..i] == a[..i]
    ensures i < |a| ==> (a + [x])[i] == a[i]
  {
  }

  /** The rows created by one more query follow those created before. */
  lemma AllCreatedSnoc(outcomes: seq<seq<Result<Lead, ServiceError>>>, os: seq<Result<Lead, ServiceError>>)
    ensures (outcomes + [os])[..|outcomes|] == outcomes
    ensures AllCreated(outcomes + [os]) == AllCreated(outcomes) + CreatedRows(os)
  {
    SnocPrefix(outcomes, os, |outcomes|);
    assert outcomes[..|outcomes|] == outcomes;
  }

  /** One more query of the batch, answered against the store the earlier
      ones left, extends the answers and the reported results by one. */
  lemma BatchStep(rows0: seq<Lead>, next0: LeadId, ss: seq<DiscoveryResult>, q: nat,
                  outs: seq<seq<Result<Lead, ServiceError>>>, mid: seq<Lead>, midNext: LeadId,
                  os: seq<Result<Lead, ServiceError>>, dbMessage: DbError -> string, create: Creator)
    requires OneAnswerEach(create)
    requires q < |ss| && outs == Answers(rows0, next0, ss[..q], create)
    requires mid == rows0 + AllCreated(outs) && midNext == next0 + |AllCreated(outs)|
    requires os == create(mid, midNext, ss[q].leads)
    ensures outs + [os] == Answers(rows0, next0, ss[..q + 1], create)
    ensures AllCreated(outs + [os]) == AllCreated(outs) + CreatedRows(os)
    ensures Reports(ss[..q + 1], outs + [os], dbMessage)
            == Reports(ss[..q], outs, dbMessage) + [WithFailures(ss[q], os, dbMessage)]
  {
    assert ss[..q + 1][..q] == ss[..q];
    AllCreatedSnoc(outs, os);
  }

  /** One query of the batch keeps its record of the notes: one per row
      created so far. */
  lemma NotedBatchStep(acts: seq<Activity>, mid: seq<Activity>, before: seq<Activity>,
                       outcomes: seq<seq<Result<Lead, ServiceError>>>, os: seq<Result<Lead, ServiceError>>, now: int)
    requires NotedFor(mid, before, AllCreated(outcomes), now)
    requires NotedFor(acts, mid, CreatedRows(os), now)
    ensures NotedFor(acts, before, AllCreated(outcomes + [os]), now)
  {
    NotedChain(acts, mid, before, AllCreated(outcomes), CreatedRows(os), now);
    AllCreatedSnoc(outcomes, os);
  }

  /** `runDiscovery`: one search per query, in order, each followed by the
      creation of its leads against the store the earlier queries left; the
      run reports every result, the leads found, the rows created and all
      errors. */
  method RunDiscovery(store: LeadStore, queries: seq<string>, location: string, apiKey: Option<string>,
                      o: Oracles, dbMessage: DbError -> string, now: int)
    returns (run: DiscoveryRun, ghost outcomes: seq<seq<Result<Lead, ServiceError>>>)
    requires store.Valid()
    modifies store
    ensures store.Valid()
    ensures outcomes
            == Answers(old(store.leads), old(store.nextLeadId), Searches(queries, location, apiKey, o), CreatorAt(now))
    ensures run.results == Reports(Searches(queries, location, apiKey, o), outcomes, dbMessage)
    ensures run.totalFound == FoundIn(run.results) && run.errors == ErrorsIn(run.results)
    ensures run.totalCreated == |AllCreated(outcomes)|
    ensures store.leads == old(store.leads) + AllCreated(outcomes)
    ensures store.nextLeadId == old(store.nextLeadId) + run.totalCreated
    ensures NotedFor(store.activities, old(store.activities), AllCreated(outcomes), now)
  {
    ghost var ss := Searches(queries, location, apiKey, o);
    assert store.activities[..|old(store.activities)|] == old(store.activities);
    var results: seq<DiscoveryResult> := [];
    var totalCreated: nat := 0;
    outcomes := [];
    var q := 0;
    while q < |queries|
      invariant q <= |queries| && store.Valid()
      invariant outcomes == Answers(old(store.leads), old(store.nextLeadId), ss[..q], CreatorAt(now))
      invariant results == Reports(ss[..q], outcomes, dbMessage)
      invariant totalCreated == |AllCreated(outcomes)|
      invariant store.leads == old(store.leads) + AllCreated(outcomes)
      invariant store.nextLeadId == old(store.nextLeadId) + totalCreated
      invariant NotedFor(store.activities, old(store.activities), AllCreated(outcomes), now)
    {
      ghost var mid, midNext, midActs := store.leads, store.nextLeadId, store.activities;
      var result, created, os := DiscoverQuery(store, queries[q], location, apiKey, o, dbMessage, now);
      NotedBatchStep(store.activities, midActs, old(store.activities), outcomes, os, now);
      assert ss[q] == SearchOf(queries[q], location, apiKey, o);
      CreatorAtIs(now, mid, midNext, ss[q].leads);
      BatchStep(old(store.leads), old(store.nextLeadId), ss, q, outcomes, mid, midNext, os, dbMessage, CreatorAt(now));
      ConcatAssoc(old(store.leads), AllCreated(outcomes), CreatedRows(os));
      totalCreated := totalCreated + created;
      results := results + [result];
      outcomes := outcomes + [os];
      q := q + 1;
    }
    assert ss[..q] == ss;
    run := DiscoveryRun(FoundIn(results), totalCreated, ErrorsIn(results), results);
  }
}
