/** The static tables and small helpers of the data layer: the travel allow-list,
    the country to representative-city table, the curated fallback images, the
    descriptions, the base ratings and the credential test. */
module Helpers {
  import opened Outcomes

  const UnsplashPlaceholder: string := "your_unsplash_key_here"
  const OpenTripMapPlaceholder: string := "your_actual_opentripmap_key_here"

  /** A credential is usable when it is present, non-empty (JavaScript truthiness)
      and not the placeholder shipped in the example environment file. */
  predicate Configured(key: Option<string>, placeholder: string)
  {
    key.Some? && key.value != "" && key.value != placeholder
  }

  /** The three ways a credential is unusable (absent, empty, the placeholder), and
      every other key is usable. */
  lemma ConfiguredCases(placeholder: string, key: string)
    ensures !Configured(None, placeholder)
    ensures !Configured(Some(""), placeholder) && !Configured(Some(placeholder), placeholder)
    ensures key != "" && key != placeholder ==> Configured(Some(key), placeholder)
  {
  }

  /** The 30 travel-relevant countries getAllCountries keeps. */
  const PopularCountries: seq<string> := [
    "France",
    "Italy",
    "Japan",
    "United States",
    "Spain",
    "Thailand",
    "Australia",
    "Brazil",
    "Greece",
    "Mexico",
    "United Kingdom",
    "Germany",
    "Portugal",
    "Netherlands",
    "Switzerland",
    "Canada",
    "New Zealand",
    "Indonesia",
    "Vietnam",
    "South Korea",
    "Turkey",
    "Egypt",
    "Morocco",
    "South Africa",
    "Argentina",
    "Chile",
    "Peru",
    "Costa Rica",
    "Iceland",
    "Norway"
  ]

  const CityTable: map<string, string> := map[
    "France" := "Paris",
    "Italy" := "Rome",
    "Japan" := "Tokyo",
    "United States" := "New York",
    "Spain" := "Barcelona",
    "Thailand" := "Bangkok",
    "Australia" := "Sydney",
    "Brazil" := "Rio de Janeiro",
    "Greece" := "Santorini",
    "Mexico" := "Canc\U{00C3}\U{00BA}n",
    "United Kingdom" := "London",
    "Germany" := "Berlin",
    "Portugal" := "Lisbon",
    "Netherlands" := "Amsterdam",
    "Switzerland" := "Swiss Alps",
    "Canada" := "Vancouver",
    "New Zealand" := "Queenstown",
    "Indonesia" := "Bali",
    "Vietnam" := "Hanoi",
    "South Korea" := "Seoul",
    "Turkey" := "Istanbul",
    "Egypt" := "Cairo",
    "Morocco" := "Marrakech",
    "South Africa" := "Cape Town",
    "Argentina" := "Buenos Aires",
    "Chile" := "Santiago",
    "Peru" := "Machu Picchu",
    "Costa Rica" := "San Jos\U{00C3}\U{00A9}",
    "Iceland" := "Reykjavik",
    "Norway" := "Oslo"
  ]

  /** getCityForCountry: the representative city, or the country name itself. */
  function CityForCountry(country: string): (city: string)
    ensures country in CityTable ==> city == CityTable[country]
    ensures country !in CityTable ==> city == country
  {
    if country in CityTable then CityTable[country] else country
  }

  const ImageTable: map<string, string> := map[
    "France" := "https://images.unsplash.com/" + "photo-1502602898536-47ad22581b52?" + "w=500&h=400&fit=crop&q=80",
    "Italy" := "https://images.unsplash.com/" + "photo-1515542622106-78bda8ba0e5b?" + "w=500&h=400&fit=crop&q=80",
    "Japan" := "https://images.unsplash.com/" + "photo-1540959733332-0b10c5c066f2?" + "w=500&h=400&fit=crop&q=80",
    "United States" := "https://images.unsplash.com/" + "photo-1485738422979-f5c462d49f74?" + "w=500&h=400&fit=crop&q=80",
    "Spain" := "https://images.unsplash.com/" + "photo-1512470876302-972faa2aa9a4?" + "w=500&h=400&fit=crop&q=80",
    "Thailand" := "https://images.unsplash.com/" + "photo-1528181304800-259b08848526?" + "w=500&h=400&fit=crop&q=80",
    "Australia" := "https://images.unsplash.com/" + "photo-1506905925346-21bda4d32df4?" + "w=500&h=400&fit=crop&q=80",
    "Brazil" := "https://images.unsplash.com/" + "photo-1483729558449-99ef09a8c325?" + "w=500&h=400&fit=crop&q=80",
    "Greece" := "https://images.unsplash.com/" + "photo-1570077188670-e3a8d69ac5ff?" + "w=500&h=400&fit=crop&q=80",
    "Mexico" := "https://images.unsplash.com/" + "photo-1518638150340-f706e86654de?" + "w=500&h=400&fit=crop&q=80",
    "United Kingdom" := "https://images.unsplash.com/" + "photo-1513635269975-59663e0ac1ad?" + "w=500&h=400&fit=crop&q=80",
    "Germany" := "https://images.unsplash.com/" + "photo-1467269204594-9661b134dd2b?" + "w=500&h=400&fit=crop&q=80",
    "Portugal" := "https://images.unsplash.com/" + "photo-1518998053901-5348d3961a04?" + "w=500&h=400&fit=crop&q=80",
    "Netherlands" := "https://images.unsplash.com/" + "photo-1506905925346-21bda4d32df4?" + "w=500&h=400&fit=crop&q=80",
    "Switzerland" := "https://images.unsplash.com/" + "photo-1506905925346-21bda4d32df4?" + "w=500&h=400&fit=crop&q=80",
    "Canada" := "https://images.unsplash.com/" + "photo-1519832979-6fa011b87667?" + "w=500&h=400&fit=crop&q=80",
    "New Zealand" := "https://images.unsplash.com/" + "photo-1507699622108-4be3abd695ad?" + "w=500&h=400&fit=crop&q=80",
    "Indonesia" := "https://images.unsplash.com/" + "photo-1537953773345-d172ccf13cf1?" + "w=500&h=400&fit=crop&q=80",
    "Vietnam" := "https://images.unsplash.com/" + "photo-1583417319070-4a69db38a482?" + "w=500&h=400&fit=crop&q=80",
    "South Korea" := "https://images.unsplash.com/" + "photo-1534274867514-d5b47ef89ed7?" + "w=500&h=400&fit=crop&q=80",
    "Turkey" := "https://images.unsplash.com/" + "photo-1524231757912-21f4fe3a7200?" + "w=500&h=400&fit=crop&q=80",
    "Egypt" := "https://images.unsplash.com/" + "photo-1539650116574-75c0c6d73f6e?" + "w=500&h=400&fit=crop&q=80",
    "Morocco" := "https://images.unsplash.com/" + "photo-1543349689-9a4d426bee8e?" + "w=500&h=400&fit=crop&q=80",
    "South Africa" := "https://images.unsplash.com/" + "photo-1484318571209-661cf29a69c3?" + "w=500&h=400&fit=crop&q=80",
    "Argentina" := "https://images.unsplash.com/" + "photo-1544816155-12df9643f363?" + "w=500&h=400&fit=crop&q=80",
    "Chile" := "https://images.unsplash.com/" + "photo-1506905925346-21bda4d32df4?" + "w=500&h=400&fit=crop&q=80",
    "Peru" := "https://images.unsplash.com/" + "photo-1587595431973-160d0d94add1?" + "w=500&h=400&fit=crop&q=80",
    "Costa Rica" := "https://images.unsplash.com/" + "photo-1533227268428-f9ed0900fb3b?" + "w=500&h=400&fit=crop&q=80",
    "Iceland" := "https://images.unsplash.com/" + "photo-1506905925346-21bda4d32df4?" + "w=500&h=400&fit=crop&q=80",
    "Norway" := "https://images.unsplash.com/" + "photo-1527004013197-933c4bb611b3?" + "w=500&h=400&fit=crop&q=80"
  ]

  const GenericImage: string := "https://images.unsplash.com/" + "photo-1488646953014-85cb44e25828?" + "w=500&h=400&fit=crop&q=80"

  /** getFallbackCountryImage: the curated image, or the generic travel image; never empty. */
  function FallbackImage(country: string): (url: string)
    ensures |url| > 0
    ensures url == GenericImage || url in ImageTable.Values
    ensures country in ImageTable ==> url == ImageTable[country]
    ensures country !in ImageTable ==> url == GenericImage
  {
    if country in ImageTable then ImageTable[country] else GenericImage
  }

  const DescriptionTable: map<string, string> := map[
    "France" := "Experience the romance " + "of Paris, the glamour " + "of the French Riviera, " + "and the exquisite " + "cuisine that makes " + "France a world-class " + "destination.",
    "Italy" := "From the ancient ruins " + "of Rome to the romantic " + "canals of Venice and " + "the stunning Amalfi " + "Coast, Italy offers " + "endless beauty and " + "history.",
    "Japan" := "Discover the perfect " + "blend of ancient traditions " + "and cutting-edge technology " + "in the Land of the " + "Rising Sun.",
    "United States" := "Explore diverse landscapes " + "from New York City " + "skyscrapers to California " + "beaches and the Grand " + "Canyon's natural wonders.",
    "Spain" := "Enjoy vibrant festivals, " + "stunning architecture, " + "beautiful beaches, " + "and world-renowned " + "cuisine in this passionate " + "Mediterranean country.",
    "Thailand" := "Experience golden " + "temples, tropical " + "islands, bustling " + "markets, and the famous " + "Thai hospitality in " + "the Land of Smiles.",
    "Australia" := "Discover the Great " + "Barrier Reef, unique " + "wildlife, stunning " + "outback landscapes, " + "and vibrant coastal " + "cities down under.",
    "Brazil" := "From the Amazon rainforest " + "to Rio's Carnival " + "and Iguazu Falls, " + "Brazil offers incredible " + "natural beauty and " + "vibrant culture.",
    "Greece" := "Explore ancient ruins, " + "stunning islands with " + "whitewashed buildings, " + "and crystal-clear " + "waters in the birthplace " + "of democracy.",
    "Mexico" := "Experience rich history " + "from ancient Mayan " + "ruins to colonial " + "cities, beautiful " + "beaches, and world-famous " + "cuisine."
  ]

  /** generateCountryDescription: the curated text, or a sentence naming the country. */
  function CountryDescription(country: string): (d: string)
    ensures |d| > 0
    ensures country in DescriptionTable ==> d == DescriptionTable[country]
    ensures country !in DescriptionTable ==>
      d == "Discover the beautiful " + "landscapes, rich culture, " + "and amazing experiences " + "waiting for you in " + country + "."
  {
    if country in DescriptionTable then DescriptionTable[country]
    else "Discover the beautiful " + "landscapes, rich culture, " + "and amazing experiences " + "waiting for you in " + country + "."
  }

  const RatingTable: map<string, real> := map[
    "France" := 4.8,
    "Italy" := 4.7,
    "Japan" := 4.9,
    "United States" := 4.6,
    "Spain" := 4.7,
    "Thailand" := 4.5,
    "Australia" := 4.6,
    "Brazil" := 4.4,
    "Greece" := 4.7,
    "Mexico" := 4.5,
    "United Kingdom" := 4.6,
    "Germany" := 4.5,
    "Portugal" := 4.6,
    "Netherlands" := 4.5,
    "Switzerland" := 4.8,
    "Canada" := 4.6,
    "New Zealand" := 4.7,
    "Indonesia" := 4.4,
    "Vietnam" := 4.3,
    "South Korea" := 4.6,
    "Turkey" := 4.4,
    "Egypt" := 4.2,
    "Morocco" := 4.3,
    "South Africa" := 4.4,
    "Argentina" := 4.3,
    "Chile" := 4.4,
    "Peru" := 4.5,
    "Costa Rica" := 4.4,
    "Iceland" := 4.7,
    "Norway" := 4.6
  ]

  /** generateCountryRating. `random` is the value Math.random() returns, used
      only for a country outside the table; a listed country gets its table
      value exactly, with no variation. */
  function GenerateRating(country: string, random: real): (r: real)
    requires 0.0 <= random < 1.0
    ensures country in RatingTable ==> r == RatingTable[country]
    ensures country !in RatingTable ==> 4.3 <= r < 4.7
    ensures 4.2 <= r <= 4.9
  {
    RatingBounds();
    if country in RatingTable then RatingTable[country] else 4.3 + random * 0.4
  }

  /** Every base rating lies between 4.2 and 4.9. */
  lemma RatingBounds()
    ensures forall c :: c in RatingTable ==> 4.2 <= RatingTable[c] <= 4.9
  {
  }

  /** Every allow-listed country has a city, a curated image and a base rating. */
  lemma TablesCoverAllowList()
    ensures |PopularCountries| == 30
    ensures forall i :: 0 <= i < |PopularCountries| ==> PopularCountries[i] in CityTable
    ensures forall i :: 0 <= i < |PopularCountries| ==> PopularCountries[i] in ImageTable
    ensures forall i :: 0 <= i < |PopularCountries| ==> PopularCountries[i] in RatingTable
  {
    CitiesCoverAllowList();
    ImagesCoverAllowList();
    RatingsCoverAllowList();
  }

  lemma CitiesCoverAllowList()
    ensures |PopularCountries| == 30
    ensures forall i :: 0 <= i < |PopularCountries| ==> PopularCountries[i] in CityTable
  {
  }

  lemma ImagesCoverAllowList()
    ensures forall i :: 0 <= i < |PopularCountries| ==> PopularCountries[i] in ImageTable
  {
  }

  lemma RatingsCoverAllowList()
    ensures forall i :: 0 <= i < |PopularCountries| ==> PopularCountries[i] in RatingTable
  {
  }

  /** Conversely, the tables have no key outside the allow-list. */
  lemma TablesOnlyAllowList()
    ensures forall c :: c in CityTable ==> c in PopularCountries
    ensures forall c :: c in ImageTable ==> c in PopularCountries
    ensures forall c :: c in RatingTable ==> c in PopularCountries
    ensures forall c :: c in DescriptionTable ==> c in PopularCountries
  {
    CitiesOnlyAllowList();
    ImagesOnlyAllowList();
    RatingsOnlyAllowList();
    DescriptionsOnlyAllowList();
  }

  lemma CitiesOnlyAllowList()
    ensures forall c :: c in CityTable ==> c in PopularCountries
  {
  }

  lemma ImagesOnlyAllowList()
    ensures forall c :: c in ImageTable ==> c in PopularCountries
  {
  }

  lemma RatingsOnlyAllowList()
    ensures forall c :: c in RatingTable ==> c in PopularCountries
  {
  }

  lemma DescriptionsOnlyAllowList()
    ensures forall c :: c in DescriptionTable ==> c in PopularCountries
  {
  }

  /** The curated descriptions cover exactly the first ten allow-listed countries. */
  lemma DescriptionsCoverFirstTen()
    ensures forall i :: 0 <= i < 10 ==> PopularCountries[i] in DescriptionTable
    ensures forall i :: 10 <= i < |PopularCountries| ==> PopularCountries[i] !in DescriptionTable
  {
    DescriptionsForFirstTen();
    NoDescriptionsForMiddleTen();
    NoDescriptionsForLastTen();
  }

  lemma DescriptionsForFirstTen()
    ensures |PopularCountries| == 30
    ensures forall i :: 0 <= i < 10 ==> PopularCountries[i] in DescriptionTable
  {
  }

  lemma NoDescriptionsForMiddleTen()
    ensures forall i :: 10 <= i < 20 ==> PopularCountries[i] !in DescriptionTable
  {
  }

  lemma NoDescriptionsForLastTen()
    ensures forall i :: 20 <= i < 30 ==> PopularCountries[i] !in DescriptionTable
  {
  }

  /** An allow-listed country is always shown under a city of its own: its
      display name is the table city, never the country name. */
  lemma AllowListedCitiesDiffer()
    ensures forall i :: 0 <= i < |PopularCountries| ==>
      CityForCountry(PopularCountries[i]) == CityTable[PopularCountries[i]] &&
      CityForCountry(PopularCountries[i]) != PopularCountries[i]
  {
    CitiesCoverAllowList();
  }

  /** An allow-listed country gets curated text exactly when it is one of the
      first ten; the others get the sentence naming them. */
  lemma CuratedDescriptionsFirstTen()
    ensures forall i :: 0 <= i < |PopularCountries| ==>
      (i < 10 <==> PopularCountries[i] in DescriptionTable &&
                   CountryDescription(PopularCountries[i]) == DescriptionTable[PopularCountries[i]])
  {
    DescriptionsForFirstTen();
    DescriptionsCoverFirstTen();
  }
}
