/** locationsAPI: the search and popular-destination listing over getAllCountries,
    and the detail lookup over getCountryByName. As in CountriesApi, the seed list
    the application passes (Constants.MockLocations) is the parameter `seed`. */
module LocationsApi {
  import opened Outcomes
  import opened Text
  import opened Seqs
  import opened Constants
  import opened Helpers
  import opened Images
  import opened CountriesApi

  /** The ten countries of the popular-destinations listing. */
  const PopularTen: seq<string> :=
    ["France", "Italy", "Japan", "United States", "Spain", "Thailand", "Australia", "Brazil", "Greece", "Mexico"]

  /** The listing keeps at most this many destinations. */
  const PopularLimit: nat := 12

  function IsPopular(l: Location): bool
  {
    l.country in PopularTen
  }

  /** A search query is present when it is a non-empty string (JavaScript truthiness). */
  predicate HasQuery(q: Option<string>)
  {
    q.Some? && q.value != ""
  }

  /** The locations of `ls` whose name or country contains the lower-cased query. */
  function SearchFilter(ls: seq<Location>, query: string): (r: seq<Location>)
    ensures |r| <= |ls|
    ensures forall i :: 0 <= i < |r| ==> Matches(r[i], Lower(query))
  {
    Filter(ls, l => Matches(l, Lower(query)))
  }

  /** The search keeps exactly the matching locations. */
  lemma SearchFilterMembers(ls: seq<Location>, query: string)
    ensures forall l :: l in SearchFilter(ls, query) <==> l in ls && Matches(l, Lower(query))
  {
    FilterMembers(ls, l => Matches(l, Lower(query)));
  }

  /** What getLocations returns once getAllCountries has produced `all`: the live
      search hits, else the seed search hits, for a query; the first twelve
      locations in one of the ten popular countries without one. */
  function SelectLocations(seed: seq<Location>, all: seq<Location>, q: Option<string>): (r: seq<Location>)
    ensures HasQuery(q) ==> forall i :: 0 <= i < |r| ==> Matches(r[i], Lower(q.value))
    ensures !HasQuery(q) ==> |r| <= PopularLimit && forall i :: 0 <= i < |r| ==> IsPopular(r[i])
  {
    if HasQuery(q) then
      var live := SearchFilter(all, q.value);
      if |live| == 0 then SearchFilter(seed, q.value) else live
    else
      Take(Filter(all, IsPopular), PopularLimit)
  }

  /** A query with live matches gets exactly the live matches, in provider order:
      every matching location of the list and nothing else. */
  lemma LiveHitsWin(seed: seq<Location>, all: seq<Location>, q: string)
    requires q != "" && SearchFilter(all, q) != []
    ensures SelectLocations(seed, all, Some(q)) == SearchFilter(all, q)
    ensures forall l :: l in SelectLocations(seed, all, Some(q)) <==> l in all && Matches(l, Lower(q))
  {
    SearchFilterMembers(all, q);
  }

  /** A query without live matches gets exactly the matching seed entries. */
  lemma SeedHitsWhenNoLiveHit(seed: seq<Location>, all: seq<Location>, q: string)
    requires q != "" && SearchFilter(all, q) == []
    ensures SelectLocations(seed, all, Some(q)) == SearchFilter(seed, q)
    ensures forall l :: l in SelectLocations(seed, all, Some(q)) <==> l in seed && Matches(l, Lower(q))
  {
    SearchFilterMembers(seed, q);
  }

  /** Without a query, the listing is drawn from the list itself. */
  lemma NoQueryDrawsFromList(seed: seq<Location>, all: seq<Location>)
    ensures forall l :: l in SelectLocations(seed, all, None) ==> l in all
  {
    FilterMembers(all, IsPopular);
  }

  /** The search ignores case: two queries that lower-case alike give the same answer. */
  lemma {:induction false} SearchIgnoresCase(seed: seq<Location>, all: seq<Location>, a: string, b: string)
    requires Lower(a) == Lower(b)
    ensures SelectLocations(seed, all, Some(a)) == SelectLocations(seed, all, Some(b))
  {
    assert a == "" <==> b == "";
    assert SearchFilter(all, a) == SearchFilter(all, b);
    assert SearchFilter(seed, a) == SearchFilter(seed, b);
  }

  /** The empty string is no query at all: it lists popular destinations. */
  lemma EmptyQueryIsNoQuery(seed: seq<Location>, all: seq<Location>)
    ensures SelectLocations(seed, all, Some("")) == SelectLocations(seed, all, None)
  {
  }

  /** Without a query the listing keeps provider order: it is the popular prefix of the list. */
  lemma {:induction false} NoQueryKeepsOrder(seed: seq<Location>, a: seq<Location>, b: seq<Location>)
    requires |Filter(a, IsPopular)| >= PopularLimit
    ensures SelectLocations(seed, a + b, None) == SelectLocations(seed, a, None)
  {
    FilterAppend(a, b, IsPopular);
    var fa := Filter(a, IsPopular);
    assert (fa + Filter(b, IsPopular))[..PopularLimit] == fa[..PopularLimit];
  }

  /** Offline, the popular listing is the eight seed entries in the ten countries:
      Paris, Tokyo, New York, Santorini, Rome, Kyoto, Barcelona and Sydney
      (Bali, the Swiss Alps, Machu Picchu and Dubai are outside them). */
  lemma NoQueryOnSeed()
    ensures |SelectLocations(MockLocations, MockLocations, None)| == 8
    ensures SelectLocations(MockLocations, MockLocations, None) ==
      [MockLocations[0], MockLocations[1], MockLocations[2], MockLocations[3],
       MockLocations[6], MockLocations[7], MockLocations[8], MockLocations[9]]
  {
    SeedPopularity();
    FilterFourTwoFourTwo(MockLocations, IsPopular);
  }

  /** Paris, Tokyo, New York and Santorini lie in popular countries; Bali and the
      Swiss Alps do not; Rome, Kyoto, Barcelona and Sydney do; Machu Picchu and
      Dubai do not. */
  lemma SeedPopularity()
    ensures |MockLocations| == 12
    ensures IsPopular(MockLocations[0]) && IsPopular(MockLocations[1]) && IsPopular(MockLocations[2])
    ensures IsPopular(MockLocations[3]) && !IsPopular(MockLocations[4]) && !IsPopular(MockLocations[5])
    ensures IsPopular(MockLocations[6]) && IsPopular(MockLocations[7]) && IsPopular(MockLocations[8])
    ensures IsPopular(MockLocations[9]) && !IsPopular(MockLocations[10]) && !IsPopular(MockLocations[11])
  {
    SeedNamesFirst();
    SeedNamesLast();
    SeedPopularityOf(MockLocations[0], MockLocations[1], MockLocations[2]);
    SeedPopularityOf(MockLocations[3], MockLocations[6], MockLocations[7]);
    SeedPopularityOf(MockLocations[8], MockLocations[9], MockLocations[9]);
    SeedUnpopularityOf(MockLocations[4], MockLocations[5], MockLocations[10], MockLocations[11]);
  }

  lemma SeedPopularityOf(a: Location, b: Location, c: Location)
    requires a.country in PopularTen && b.country in PopularTen && c.country in PopularTen
    ensures IsPopular(a) && IsPopular(b) && IsPopular(c)
  {
  }

  lemma SeedUnpopularityOf(a: Location, b: Location, c: Location, d: Location)
    requires a.country == "Indonesia" && b.country == "Switzerland" && c.country == "Peru"
    requires d.country == "United Arab Emirates"
    ensures !IsPopular(a) && !IsPopular(b) && !IsPopular(c) && !IsPopular(d)
  {
  }

  /** getLocations. `response` is the outcome of the all-countries request that
      getAllCountries makes; getAllCountries never fails, so the seed fallback of
      the outer error handler is never reached and the answer is the selection
      over what getAllCountries returned. */
  method GetLocations(cache: ImageCache, seed: seq<Location>, q: Option<string>, response: Fetched<seq<CountryRecord>>,
                      accessKey: Option<string>, search: PhotoSearch, random: real)
    returns (all: seq<Location>, locations: seq<Location>)
    requires 0.0 <= random < 1.0
    modifies cache
    ensures response.Err? ==> all == seed && cache.entries == old(cache.entries)
    ensures response.Ok? ==>
      var kept := AllowListed(response.payload);
      |all| == |kept| &&
      (forall i :: 0 <= i < |all| ==> all[i] == CountryLocation(kept[i], all[i].imageUrl, random)) &&
      ResolvedList(old(cache.entries), cache.entries, Names(kept), ImageUrls(all), accessKey, search)
    ensures locations == SelectLocations(seed, all, q)
    ensures Extends(old(cache.entries), cache.entries)
  {
    all := GetAllCountries(cache, seed, response, accessKey, search, random);
    locations := SelectLocations(seed, all, q);
  }

  /** The outer error handler of getLocations: the matching seed entries for a
      query, the whole seed without one. The try block it guards never throws,
      since getAllCountries answers every failure itself. */
  function CatchFallback(seed: seq<Location>, q: Option<string>): (r: seq<Location>)
    ensures HasQuery(q) ==> r == SelectLocations(seed, [], q)
    ensures !HasQuery(q) ==> r == seed
  {
    if HasQuery(q) then SearchFilter(seed, q.value) else seed
  }

  /** Without a query the error handler would list all twelve seed entries,
      where the normal path over the same seed lists eight. */
  lemma CatchListsWholeSeed()
    ensures |CatchFallback(MockLocations, None)| == 12
    ensures |SelectLocations(MockLocations, MockLocations, None)| == 8
  {
    SeedIdsDistinct();
    NoQueryOnSeed();
  }

  /** The seed entry with the given id, as MOCK_LOCATIONS.find(loc => loc.id === id). */
  function SeedById(seed: seq<Location>, id: string): (r: Option<Location>)
    ensures r.Some? ==> r.value in seed && r.value.id == id
    ensures r.None? ==> forall l :: l in seed ==> l.id != id
  {
    FindFirst(seed, (l: Location) => l.id == id)
  }

  /** No two entries of the list share an id. */
  predicate UniqueIds(seed: seq<Location>)
  {
    forall i, j :: 0 <= i < j < |seed| ==> seed[i].id != seed[j].id
  }

  /** The seed dataset's ids are unique. */
  lemma SeedIdsUnique()
    ensures UniqueIds(MockLocations)
  {
    SeedIdsDistinct();
  }

  /** In a list with unique ids every entry is found by its own id. */
  lemma {:induction false} SeedByIdFindsEntry(seed: seq<Location>, i: nat)
    requires UniqueIds(seed) && i < |seed|
    ensures SeedById(seed, seed[i].id) == Some(seed[i])
  {
    var id := seed[i].id;
    FindFirstAt(seed, (l: Location) => l.id == id, i);
  }

  /** getLocation, as written: getCountryByName always produces a location, so the
      lookup by id among the seed entries and the not-found error are never reached. */
  method GetLocation(cache: ImageCache, seed: seq<Location>, id: string, response: Fetched<seq<CountryRecord>>,
                     accessKey: Option<string>, search: PhotoSearch, random: real)
    returns (r: Result<Location>)
    requires 0.0 <= random < 1.0
    modifies cache
    ensures r.Success?
    ensures ByNameSucceeds(response) ==>
      r.value == ByNameLocation(response.payload[0], r.value.imageUrl, random) &&
      CachedAs(cache.entries, response.payload[0].name, r.value.imageUrl)
    ensures !ByNameSucceeds(response) && SeedMatch(seed, id).Some? ==> r.value == SeedMatch(seed, id).value
    ensures !ByNameSucceeds(response) && SeedMatch(seed, id).None? ==>
      r.value == SyntheticLocation(id, r.value.imageUrl, random) &&
      CachedAs(cache.entries, id, r.value.imageUrl)
    ensures cache.entries == AfterByName(old(cache.entries), seed, id, response, accessKey, search)
    ensures Extends(old(cache.entries), cache.entries)
  {
    var loc := GetCountryByName(cache, seed, id, response, accessKey, search, random);
    return Success(loc);
  }

  /** The rating of the location opened for `id` comes from the table rather
      than from Math.random(): a provider country or a synthesised name that the
      table lists, or a seed entry. */
  predicate RatingFromTable(seed: seq<Location>, id: string, response: Fetched<seq<CountryRecord>>)
  {
    if ByNameSucceeds(response) then response.payload[0].name in RatingTable
    else SeedMatch(seed, id).Some? || id in RatingTable
  }

  /** Opening the same id twice, with the upstream answers held fixed and two
      independent draws of Math.random(): the second call reuses the image cached
      by the first and caches nothing new, so the two locations differ at most in
      the rating, and not at all when the rating comes from the table. */
  method GetLocationTwice(cache: ImageCache, seed: seq<Location>, id: string, response: Fetched<seq<CountryRecord>>,
                          accessKey: Option<string>, search: PhotoSearch, r1: real, r2: real)
    returns (first: Result<Location>, second: Result<Location>)
    requires 0.0 <= r1 < 1.0 && 0.0 <= r2 < 1.0
    modifies cache
    ensures first.Success? && second.Success?
    ensures second.value == first.value.(rating := second.value.rating)
    ensures RatingFromTable(seed, id, response) ==> first == second
    ensures cache.entries == AfterByName(old(cache.entries), seed, id, response, accessKey, search)
  {
    first := GetLocation(cache, seed, id, response, accessKey, search, r1);
    ghost var mid := cache.entries;
    second := GetLocation(cache, seed, id, response, accessKey, search, r2);
    AfterByNameIdempotent(old(cache.entries), seed, id, response, accessKey, search);
    if ByNameSucceeds(response) {
      CachedAsPersists(mid, cache.entries, response.payload[0].name, first.value.imageUrl);
    } else if SeedMatch(seed, id).None? {
      CachedAsPersists(mid, cache.entries, id, first.value.imageUrl);
    }
  }

  /** Offline and without a query, the listing is the eight popular seed entries
      rather than the whole seed. */
  method ListOfflineWithoutQuery(cache: ImageCache, accessKey: Option<string>,
                                 search: PhotoSearch, random: real)
    returns (locations: seq<Location>)
    requires 0.0 <= random < 1.0
    modifies cache
    ensures |locations| == 8
  {
    var all;
    all, locations := GetLocations(cache, MockLocations, None, Err(HttpStatus(500)), accessKey, search, random);
    NoQueryOnSeed();
  }

  /** A record whose name and country lack a digit matches no query of that digit. */
  lemma {:induction false} DigitMatchesNot(l: Location, c: char)
    requires '0' <= c <= '9' && c !in l.country && c !in l.name
    ensures !Matches(l, [c])
  {
    LowerKeepsNonLetter(l.country, c);
    LowerKeepsNonLetter(l.name, c);
    ContainsChar(Lower(l.country), c);
    ContainsChar(Lower(l.name), c);
  }

  /** No seed name or country contains the digit 1. */
  lemma SeedLacksDigitOne()
    ensures |MockLocations| == 12
    ensures forall i :: 0 <= i < 12 ==> '1' !in MockLocations[i].name && '1' !in MockLocations[i].country
  {
    SeedNamesFirst();
    SeedNamesLast();
    SeedTextsLackDigitOneA();
    SeedTextsLackDigitOneB();
    SeedTextsLackDigitOneC();
    SeedTextsLackDigitOneD();
    forall i | 0 <= i < 12
      ensures '1' !in MockLocations[i].name && '1' !in MockLocations[i].country
    {
      if i == 0 {} else if i == 1 {} else if i == 2 {} else if i == 3 {}
      else if i == 4 {} else if i == 5 {} else if i == 6 {} else if i == 7 {}
      else if i == 8 {} else if i == 9 {} else if i == 10 {} else {}
    }
  }

  lemma SeedTextsLackDigitOneA()
    ensures '1' !in "Paris, France" && '1' !in "France"
    ensures '1' !in "Tokyo, Japan" && '1' !in "Japan"
    ensures '1' !in "New York, USA" && '1' !in "United States"
  {
  }

  lemma SeedTextsLackDigitOneB()
    ensures '1' !in "Santorini, Greece" && '1' !in "Greece"
    ensures '1' !in "Bali, Indonesia" && '1' !in "Indonesia"
    ensures '1' !in "Swiss Alps, Switzerland" && '1' !in "Switzerland"
  {
  }

  lemma SeedTextsLackDigitOneC()
    ensures '1' !in "Rome, Italy" && '1' !in "Italy"
    ensures '1' !in "Kyoto, Japan"
    ensures '1' !in "Barcelona, Spain" && '1' !in "Spain"
  {
  }

  lemma SeedTextsLackDigitOneD()
    ensures '1' !in "Sydney, Australia" && '1' !in "Australia"
    ensures '1' !in "Machu Picchu, Peru" && '1' !in "Peru"
    ensures '1' !in "Dubai, UAE" && '1' !in "United Arab Emirates"
  {
  }

  /** No seed entry matches the query "1". */
  lemma SeedIdOneMatchesNoEntry()
    ensures forall i :: 0 <= i < |MockLocations| ==> !Matches(MockLocations[i], "1")
  {
    SeedLacksDigitOne();
    forall i | 0 <= i < |MockLocations|
      ensures !Matches(MockLocations[i], "1")
    {
      DigitMatchesNot(MockLocations[i], '1');
    }
  }

  /** So the by-name fallback of getCountryByName finds nothing for the seed id "1". */
  lemma SeedIdOneMatchesNoName()
    ensures SeedMatch(MockLocations, "1") == None
  {
    assert Lower("1") == "1";
    SeedIdOneMatchesNoEntry();
  }

  /** The first seed entry has id "1", a display name other than "1", and no
      seed entry matches "1" by name. */
  lemma FirstSeedIdIsNoName()
    ensures |MockLocations| > 0 && MockLocations[0].id == "1" && MockLocations[0].name != "1"
    ensures SeedMatch(MockLocations, "1") == None
  {
    SeedNamesFirst();
    SeedIdOneMatchesNoName();
  }

  /** Opening the first entry by its id while the country service is unreachable
      yields a made-up record named after the id, not the entry, whenever no
      entry matches the id by name; on the seed dataset (FirstSeedIdIsNoName)
      opening Paris, id "1", yields a record named "1". */
  method OpenFirstSeedOffline(cache: ImageCache, seed: seq<Location>, accessKey: Option<string>,
                              search: PhotoSearch, random: real)
    returns (r: Result<Location>)
    requires |seed| > 0 && seed[0].name != seed[0].id && SeedMatch(seed, seed[0].id) == None
    requires 0.0 <= random < 1.0
    modifies cache
    ensures r.Success? && r.value.name == seed[0].id && r.value != seed[0]
  {
    r := GetLocation(cache, seed, seed[0].id, Err(NetworkError), accessKey, search, random);
  }

  /** getLocation as evidently intended: when the country service gives no usable
      record, a seed id finds its seed entry before any by-name fallback. */
  method GetLocationIntended(cache: ImageCache, seed: seq<Location>, id: string, response: Fetched<seq<CountryRecord>>,
                             accessKey: Option<string>, search: PhotoSearch, random: real)
    returns (r: Result<Location>)
    requires 0.0 <= random < 1.0
    modifies cache
    ensures r.Success?
    ensures ByNameSucceeds(response) ==>
      r.value == ByNameLocation(response.payload[0], r.value.imageUrl, random)
    ensures !ByNameSucceeds(response) && SeedById(seed, id).Some? ==> r.value == SeedById(seed, id).value
    ensures !ByNameSucceeds(response) && SeedById(seed, id).None? && SeedMatch(seed, id).Some? ==>
      r.value == SeedMatch(seed, id).value
    ensures Extends(old(cache.entries), cache.entries)
  {
    if !ByNameSucceeds(response) {
      var entry := SeedById(seed, id);
      if entry.Some? {
        return Success(entry.value);
      }
    }
    var loc := GetCountryByName(cache, seed, id, response, accessKey, search, random);
    return Success(loc);
  }

  /** With the correction, every entry of a list with unique ids (the seed
      dataset is one, SeedIdsUnique) opens as itself while offline. */
  method OpenSeedOfflineIntended(cache: ImageCache, seed: seq<Location>, i: nat,
                                 accessKey: Option<string>, search: PhotoSearch, random: real)
    returns (r: Result<Location>)
    requires UniqueIds(seed) && i < |seed| && 0.0 <= random < 1.0
    modifies cache
    ensures r == Success(seed[i])
  {
    SeedByIdFindsEntry(seed, i);
    r := GetLocationIntended(cache, seed, seed[i].id, Err(NetworkError), accessKey, search, random);
  }
}
