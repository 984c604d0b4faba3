/** countriesAPI: the country list (getAllCountries) and the single-country
    lookup (getCountryByName), each with its fallback to the seed dataset.
    The seed list is a parameter, `seed`, of every operation that falls back on
    it; the application passes Constants.MockLocations, and the lemmas about
    that dataset are stated on it. */
module CountriesApi {
  import opened Outcomes
  import opened Text
  import opened Seqs
  import opened Constants
  import opened Helpers
  import opened Images

  /** The fields of a reference-data country record that the layer reads:
      name.common, latlng (absent when None), population, and the currency names
      and language names in the order Object.values lists them. */
  datatype CountryRecord = CountryRecord(
    name: string,
    latlng: Option<seq<real>>,
    population: Option<int>,
    currencies: seq<string>,
    languages: seq<string>)

  /** country.latlng?.[i] || 0 */
  function Coordinate(latlng: Option<seq<real>>, i: nat): real
  {
    if latlng.Some? && i < |latlng.value| then latlng.value[i] else 0.0
  }

  /** country.latlng[i] on a present latlng: undefined (None) past its end. */
  function Element(latlng: seq<real>, i: nat): (v: Option<real>)
    ensures v.Some? <==> i < |latlng|
    ensures v.Some? ==> v.value == latlng[i]
  {
    if i < |latlng| then Some(latlng[i]) else None
  }

  /** Object.values(x || {})[0] */
  function FirstValue(values: seq<string>): Option<string>
  {
    if |values| > 0 then Some(values[0]) else None
  }

  function IsAllowListed(c: CountryRecord): bool
  {
    c.name in PopularCountries
  }

  /** The provider records getAllCountries keeps: those whose name is allow-listed,
      in provider order. */
  function AllowListed(data: seq<CountryRecord>): (kept: seq<CountryRecord>)
    ensures |kept| <= |data|
    ensures forall i :: 0 <= i < |kept| ==> kept[i].name in PopularCountries
  {
    Filter(data, IsAllowListed)
  }

  /** The kept records are exactly the allow-listed ones of the provider list. */
  lemma AllowListedMembers(data: seq<CountryRecord>)
    ensures forall c :: c in AllowListed(data) <==> c in data && c.name in PopularCountries
  {
    FilterMembers(data, IsAllowListed);
  }

  /** The allow-list filter keeps provider order: it distributes over concatenation. */
  lemma AllowListedKeepsOrder(a: seq<CountryRecord>, b: seq<CountryRecord>)
    ensures AllowListed(a + b) == AllowListed(a) + AllowListed(b)
  {
    FilterAppend(a, b, IsAllowListed);
  }

  /** The Location record built for one provider country. */
  function CountryLocation(c: CountryRecord, imageUrl: string, random: real): (l: Location)
    requires 0.0 <= random < 1.0
    ensures l.id == c.name && l.country == c.name && l.name == CityForCountry(c.name)
    ensures l.imageUrl == imageUrl && l.population == c.population
    ensures l.description == CountryDescription(c.name)
    ensures l.latitude.Some? && l.longitude.Some?
    ensures c.latlng.Some? && |c.latlng.value| > 0 ==> l.latitude.value == c.latlng.value[0]
    ensures c.latlng.Some? && |c.latlng.value| > 1 ==> l.longitude.value == c.latlng.value[1]
    ensures c.latlng.None? || |c.latlng.value| == 0 ==> l.latitude.value == 0.0
    ensures c.latlng.None? || |c.latlng.value| <= 1 ==> l.longitude.value == 0.0
    ensures 4.2 <= l.rating <= 4.9 && (c.name in RatingTable ==> l.rating == RatingTable[c.name])
    ensures |c.currencies| == 0 ==> l.currency.None?
    ensures |c.currencies| > 0 ==> l.currency == Some(c.currencies[0])
    ensures |c.languages| == 0 ==> l.language.None?
    ensures |c.languages| > 0 ==> l.language == Some(c.languages[0])
  {
    Location(c.name, CityForCountry(c.name), c.name, CountryDescription(c.name),
             Some(Coordinate(c.latlng, 0)), Some(Coordinate(c.latlng, 1)), GenerateRating(c.name, random),
             imageUrl, c.population, FirstValue(c.currencies), FirstValue(c.languages))
  }

  /** An allow-listed country's record: id and country are the common name, the
      display name is its representative city, and the rating is the table value. */
  lemma AllowListedLocationShape(c: CountryRecord, imageUrl: string, random: real)
    requires 0.0 <= random < 1.0
    requires c.name in PopularCountries
    ensures var l := CountryLocation(c, imageUrl, random);
      l.id == c.name && l.country == c.name && l.imageUrl == imageUrl &&
      c.name in CityTable && l.name == CityTable[c.name] &&
      c.name in RatingTable && l.rating == RatingTable[c.name]
  {
    TablesCoverAllowList();
  }

  /** The images of the kept countries, looked up through the cache one after the
      other in provider order. A name whose key was neither cached nor met earlier
      in the list is resolved by the search; the keys added are exactly the
      lower-cased names. */
  method ResolveEach(cache: ImageCache, names: seq<string>, accessKey: Option<string>,
                     search: PhotoSearch)
    returns (urls: seq<string>)
    modifies cache
    ensures ResolvedList(old(cache.entries), cache.entries, names, urls, accessKey, search)
  {
    urls := [];
    ghost var expected := MissUrls(names, accessKey, search);
    KeysOfNone(cache.entries, names);
    while |urls| < |names|
      invariant Progress(old(cache.entries), cache.entries, names, urls, expected)
      decreases |names| - |urls|
    {
      ghost var before := cache.entries;
      var url, queried := cache.Resolve(names[|urls|], accessKey, search);
      ProgressStep(old(cache.entries), before, cache.entries, names, urls, url, expected);
      urls := urls + [url];
    }
    ProgressDone(old(cache.entries), cache.entries, names, urls, accessKey, search);
  }

  function ImageUrls(locations: seq<Location>): (urls: seq<string>)
    ensures |urls| == |locations| && forall i :: 0 <= i < |locations| ==> urls[i] == locations[i].imageUrl
  {
    seq(|locations|, i requires 0 <= i < |locations| => locations[i].imageUrl)
  }

  /** The records of the kept countries, given their images in the same order. */
  function LocationsFor(kept: seq<CountryRecord>, urls: seq<string>, random: real): (locations: seq<Location>)
    requires |urls| == |kept| && 0.0 <= random < 1.0
    ensures |locations| == |kept| && ImageUrls(locations) == urls
    ensures forall i :: 0 <= i < |kept| ==> locations[i] == CountryLocation(kept[i], locations[i].imageUrl, random)
  {
    var locations := seq(|kept|, i requires 0 <= i < |kept| => CountryLocation(kept[i], urls[i], random));
    assert ImageUrls(locations) == urls;
    locations
  }

  function Names(kept: seq<CountryRecord>): (names: seq<string>)
    ensures |names| == |kept| && forall i :: 0 <= i < |kept| ==> names[i] == kept[i].name
  {
    seq(|kept|, i requires 0 <= i < |kept| => kept[i].name)
  }

  /** getAllCountries. `response` is the outcome of the all-countries request;
      each kept country's image comes from the cache, in provider order. */
  method GetAllCountries(cache: ImageCache, seed: seq<Location>, response: Fetched<seq<CountryRecord>>,
                         accessKey: Option<string>, search: PhotoSearch, random: real)
    returns (locations: seq<Location>)
    requires 0.0 <= random < 1.0
    modifies cache
    ensures response.Err? ==> locations == seed && cache.entries == old(cache.entries)
    ensures response.Ok? ==>
      var kept := AllowListed(response.payload);
      |locations| == |kept| &&
      (forall i :: 0 <= i < |kept| ==> locations[i] == CountryLocation(kept[i], locations[i].imageUrl, random)) &&
      ResolvedList(old(cache.entries), cache.entries, Names(kept), ImageUrls(locations), accessKey, search)
    ensures Extends(old(cache.entries), cache.entries)
  {
    if response.Err? {
      return seed;
    }
    var kept := AllowListed(response.payload);
    var urls := ResolveEach(cache, Names(kept), accessKey, search);
    locations := LocationsFor(kept, urls, random);
  }

  /** The search test shared by the seed fallback and the location search: the
      lower-cased name or country contains the (lower-cased) needle. */
  function Matches(l: Location, needle: string): bool
  {
    Contains(Lower(l.country), needle) || Contains(Lower(l.name), needle)
  }

  /** A record matches its own name and its own country, in any case, and the
      empty needle matches every record. */
  lemma MatchesOwnName(l: Location, name: string)
    requires Lower(name) == Lower(l.name) || Lower(name) == Lower(l.country)
    ensures Matches(l, Lower(name))
    ensures Matches(l, "")
  {
    assert IsPrefix(Lower(name), Lower(name));
    ContainsEmpty(Lower(l.country));
  }

  /** The first entry of the seed list, in its order, that matches the lower-cased name. */
  function SeedMatch(seed: seq<Location>, name: string): (r: Option<Location>)
    ensures r.Some? ==> r.value in seed && Matches(r.value, Lower(name))
    ensures r.Some? ==> exists i :: 0 <= i < |seed| && seed[i] == r.value &&
                                    forall j :: 0 <= j < i ==> !Matches(seed[j], Lower(name))
    ensures r.None? <==> forall l :: l in seed ==> !Matches(l, Lower(name))
  {
    FindFirst(seed, l => Matches(l, Lower(name)))
  }

  /** The record made up when neither the provider nor the seed knows the name. */
  function SyntheticLocation(name: string, imageUrl: string, random: real): (l: Location)
    requires 0.0 <= random < 1.0
    ensures l.id == name && l.name == name && l.country == name && l.imageUrl == imageUrl
    ensures l.description == "Discover the beautiful " + "landscapes and rich " + "culture of " + name + "."
    ensures l.latitude == Some(0.0) && l.longitude == Some(0.0)
    ensures l.population.None? && l.currency.None? && l.language.None?
    ensures 4.2 <= l.rating <= 4.9 && (name in RatingTable ==> l.rating == RatingTable[name])
  {
    Location(name, name, name, "Discover the beautiful " + "landscapes and rich " + "culture of " + name + ".",
             Some(0.0), Some(0.0), GenerateRating(name, random), imageUrl, None, None, None)
  }

  /** The record getCountryByName builds from the provider's first entry. It is
      the getAllCountries record except for the coordinates, which are read as
      latlng[0] and latlng[1] with no default: a short latlng leaves them undefined. */
  function ByNameLocation(c: CountryRecord, imageUrl: string, random: real): (l: Location)
    requires 0.0 <= random < 1.0
    requires c.latlng.Some?
    ensures l == CountryLocation(c, imageUrl, random).(latitude := l.latitude, longitude := l.longitude)
    ensures l.latitude.Some? <==> |c.latlng.value| > 0
    ensures l.longitude.Some? <==> |c.latlng.value| > 1
    ensures l.latitude.Some? ==> l.latitude.value == c.latlng.value[0]
    ensures l.longitude.Some? ==> l.longitude.value == c.latlng.value[1]
  {
    CountryLocation(c, imageUrl, random).(latitude := Element(c.latlng.value, 0),
                                          longitude := Element(c.latlng.value, 1))
  }

  /** The two records agree exactly when the provider gives both coordinates;
      with fewer, the list reads 0 where the by-name record is undefined. */
  lemma ByNameAgreesWithList(c: CountryRecord, imageUrl: string, random: real)
    requires 0.0 <= random < 1.0
    requires c.latlng.Some?
    ensures ByNameLocation(c, imageUrl, random) == CountryLocation(c, imageUrl, random) <==> |c.latlng.value| >= 2
  {
    var l := ByNameLocation(c, imageUrl, random);
    if |c.latlng.value| < 2 {
      assert l.longitude.None?;
    }
  }

  /** The by-name request yields a usable record: a non-empty array whose first
      entry has latlng (reading latlng[0] of an absent latlng throws). */
  predicate ByNameSucceeds(response: Fetched<seq<CountryRecord>>)
  {
    response.Ok? && |response.payload| > 0 && response.payload[0].latlng.Some?
  }

  /** The fallback of getCountryByName: the first matching seed entry, else a
      synthesised record for the name with an image from the cache. */
  method ByNameFallback(cache: ImageCache, seed: seq<Location>, name: string, accessKey: Option<string>,
                        search: PhotoSearch, random: real)
    returns (loc: Location)
    requires 0.0 <= random < 1.0
    modifies cache
    ensures SeedMatch(seed, name).Some? ==> loc == SeedMatch(seed, name).value && cache.entries == old(cache.entries)
    ensures SeedMatch(seed, name).None? ==>
      loc == SyntheticLocation(name, loc.imageUrl, random) && CachedAs(cache.entries, name, loc.imageUrl)
    ensures SeedMatch(seed, name).None? ==> cache.entries == AfterResolve(old(cache.entries), name, accessKey, search)
    ensures Extends(old(cache.entries), cache.entries)
  {
    var fallback := SeedMatch(seed, name);
    if fallback.Some? {
      return fallback.value;
    }
    var url, queried := cache.Resolve(name, accessKey, search);
    loc := SyntheticLocation(name, url, random);
  }

  /** The first step of getCountryByName on a non-empty provider answer: the
      image of the provider's first record is looked up (and cached) before its
      coordinates are read, so a record without latlng still fills the cache. */
  method ProviderLocation(cache: ImageCache, country: CountryRecord, accessKey: Option<string>,
                          search: PhotoSearch, random: real)
    returns (loc: Option<Location>)
    requires 0.0 <= random < 1.0
    modifies cache
    ensures loc.Some? <==> country.latlng.Some?
    ensures loc.Some? ==> loc.value == ByNameLocation(country, loc.value.imageUrl, random) &&
                          CachedAs(cache.entries, country.name, loc.value.imageUrl)
    ensures Lower(country.name) in cache.entries
    ensures cache.entries == AfterResolve(old(cache.entries), country.name, accessKey, search)
    ensures Extends(old(cache.entries), cache.entries)
  {
    var url, queried := cache.Resolve(country.name, accessKey, search);
    if country.latlng.Some? {
      return Some(ByNameLocation(country, url, random));
    }
    return None;
  }

  /** The cache after getCountryByName: the provider's first record, when there is
      one, is looked up first; the name itself is looked up only when the
      fallback synthesises a record. */
  function AfterByName(entries: map<string, string>, seed: seq<Location>, name: string,
                       response: Fetched<seq<CountryRecord>>, accessKey: Option<string>,
                       search: PhotoSearch): (after: map<string, string>)
    ensures Extends(entries, after)
    ensures response.Ok? && |response.payload| > 0 ==> Lower(response.payload[0].name) in after
    ensures !ByNameSucceeds(response) && SeedMatch(seed, name).None? ==> Lower(name) in after
    ensures !(response.Ok? && |response.payload| > 0) && !(!ByNameSucceeds(response) && SeedMatch(seed, name).None?) ==>
              after == entries
  {
    var provided := if response.Ok? && |response.payload| > 0
                    then AfterResolve(entries, response.payload[0].name, accessKey, search)
                    else entries;
    if !ByNameSucceeds(response) && SeedMatch(seed, name).None?
    then
      ExtendsTransitive(entries, provided, AfterResolve(provided, name, accessKey, search));
      AfterResolve(provided, name, accessKey, search)
    else provided
  }

  /** Looking the same name up again, with the same answers, adds nothing to the cache. */
  lemma AfterByNameIdempotent(entries: map<string, string>, seed: seq<Location>, name: string,
                              response: Fetched<seq<CountryRecord>>, accessKey: Option<string>,
                              search: PhotoSearch)
    ensures var after := AfterByName(entries, seed, name, response, accessKey, search);
            AfterByName(after, seed, name, response, accessKey, search) == after
  {
  }

  /** getCountryByName. `response` is the outcome of the by-name request. It never
      fails: the provider's first record when it has coordinates, else the
      fallback. */
  method GetCountryByName(cache: ImageCache, seed: seq<Location>, name: string, response: Fetched<seq<CountryRecord>>,
                          accessKey: Option<string>, search: PhotoSearch, random: real)
    returns (loc: Location)
    requires 0.0 <= random < 1.0
    modifies cache
    ensures ByNameSucceeds(response) ==>
      loc == ByNameLocation(response.payload[0], loc.imageUrl, random) &&
      CachedAs(cache.entries, response.payload[0].name, loc.imageUrl)
    ensures !ByNameSucceeds(response) && SeedMatch(seed, name).Some? ==> loc == SeedMatch(seed, name).value
    ensures !ByNameSucceeds(response) && SeedMatch(seed, name).None? ==>
      loc == SyntheticLocation(name, loc.imageUrl, random) && CachedAs(cache.entries, name, loc.imageUrl)
    ensures response.Ok? && |response.payload| > 0 ==> Lower(response.payload[0].name) in cache.entries
    ensures cache.entries == AfterByName(old(cache.entries), seed, name, response, accessKey, search)
    ensures Extends(old(cache.entries), cache.entries)
  {
    if ByNameSucceeds(response) {
      var provided := ProviderLocation(cache, response.payload[0], accessKey, search, random);
      loc := provided.value;
    } else if response.Ok? && |response.payload| > 0 {
      var provided := ProviderLocation(cache, response.payload[0], accessKey, search, random);
      ghost var before := cache.entries;
      loc := ByNameFallback(cache, seed, name, accessKey, search, random);
      ExtendsTransitive(old(cache.entries), before, cache.entries);
    } else {
      loc := ByNameFallback(cache, seed, name, accessKey, search, random);
    }
  }

  /** Searching for a seed entry's own name, in any case, finds a seed entry. */
  lemma SeedMatchFindsOwnName(seed: seq<Location>, i: nat, name: string)
    requires i < |seed| && Lower(name) == Lower(seed[i].name)
    ensures SeedMatch(seed, name).Some?
  {
    MatchesOwnName(seed[i], name);
  }

  /** A query that is part of a seed name finds that entry: "paris" finds Paris. */
  lemma SeedMatchParis()
    ensures SeedMatch(MockLocations, "paris") == Some(MockLocations[0])
  {
    var needle := Lower("paris");
    assert needle == "paris";
    assert Lower(MockLocations[0].name)[..5] == "paris";
    assert Matches(MockLocations[0], needle);
    FindFirstAt(MockLocations, l => Matches(l, needle), 0);
  }
}
