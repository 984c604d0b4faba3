# Pathfinder data layer in Dafny

Pathfinder is a travel-destination browser. Its behaviour lives in a thin data layer that combines
four web services: a country reference service, a photo search, a weather service and a
points-of-interest service. Each has a fallback to bundled data. Three small client-side stores
sit beside it. This project models that layer and those stores, and proves what they promise.

- **Image resolution cache** (`Images`): getUnsplashImageForCountry and its module-level `Map`.
  It is a class `ImageCache` with a `map<string, string>` field. The five-variant search loop is a
  `while` loop, proved against the function `ResolveMiss`.
- **Country list and lookup** (`CountriesApi`): getAllCountries, with the 30-name allow-list, and
  getCountryByName, with its chain of fallbacks. Both resolve images through the cache object.
- **Lookup helpers** (`Helpers`): the city, image, description and rating tables. Also the
  credential test, and the seed dataset MOCK_LOCATIONS (`Constants`).
- **Weather, places and photos** (`WeatherApi`, `PlacesApi`, `PhotosApi`): pure mappings from a
  service answer to the records the UI shows, including every fallback.
- **Listing and detail** (`LocationsApi`): getLocations (query, no-query and error paths) and
  getLocation.
- **Stores** (`Favorites`, `Auth`, `Ui`): classes whose methods update their fields as the
  setters do.

### How the environment is modelled

- **Network.** Every request is an outcome `Fetched<T>`: `Ok(payload)` or `Err(error)`. A failed
  status, a network error, a timeout and a malformed body are all the same `Err`. The photo search
  behind the image cache is an oracle function from query to outcome. `Resolve` also returns the
  queries it sent, so "no search was made" can be stated.
- **Credentials.** The access keys are `Option<string>` parameters.
- **Randomness.** Every Math.random() value is a `real` parameter in [0, 1).
- **Numbers.** JavaScript numbers are exact reals, and Math.round is floor(x + 0.5) (`JsMath`).
- **Undefined.** A coordinate of a `Location` is `Option<real>`; `None` is the `undefined` that
  getCountryByName stores when the provider's latlng is shorter than two.
- **Seed list.** The operations that fall back on MOCK_LOCATIONS take the list as a parameter,
  `seed`, and the application passes `Constants.MockLocations`. Each operation's contract holds
  for any list. The lemmas about the dataset itself (which entries are popular, their ids, what
  matches "1") are stated on `MockLocations`.
- **Text.** `toLowerCase` is modelled on ASCII letters. The source's double-encoded characters
  (the city names for Mexico and Costa Rica, and the weather icons) are kept character for
  character as the file spells them.

## Model

| member | source | states |
|---|---|---|
| Images.ImageCache.constructor | src/services/realApis.js:2 | the cache starts empty |
| Images.ImageCache.Resolve | src/services/realApis.js:5-71 | a cached key returns its URL, sends no search and leaves the cache unchanged; otherwise exactly the key lower(name) is added, bound to the resolved URL; the new cache is AfterResolve of the old one; the cache only grows |
| Images.AfterResolve | src/services/realApis.js:5-71 | a lookup adds exactly the key lower(name), changes no entry, and binds a key that was missing to the URL ResolveMiss gives |
| Images.Variants | src/services/realApis.js:24-30 | the five queries in order: city travel, country landscape, city city, country tourism, city landmarks, where the city is the table city or else the name itself |
| Images.ResolveMiss | src/services/realApis.js:12-64 | a miss yields a non-empty URL and sends a prefix of the five variants, in order |
| Images.UnconfiguredUsesFallback | src/services/realApis.js:13-20 | without a usable key the curated image is used and no query is sent |
| Images.FirstHitWins | src/services/realApis.js:33-54 | the first variant with a result supplies regular URL + crop suffix, and exactly the variants up to it are queried |
| Images.AllMissesUseFallback | src/services/realApis.js:61-64 | when all five searches fail or are empty, all five are queried and the curated image is used |
| Images.FirstHitAt | src/services/realApis.js:33-54 | a hit with only misses before it is the first hit |
| Images.SearchInOrder | src/services/realApis.js:33-59 | the loop stops at the first hit, reports its first result, and has sent exactly the queries up to it (all of them when none hits) |
| Images.SearchVariants | src/services/realApis.js:22-64 | the search path of a miss yields exactly ResolveMiss |
| Images.ResolveTwiceIgnoringCase | src/services/realApis.js:7-10 | two names equal up to case share one entry: the second call sends no query and returns the first URL |
| Images.CachedAsPersists | src/services/realApis.js:8-9 | an entry once written survives every later extension of the cache |
| Images.ExtendsTransitive | src/services/realApis.js:8-9 | a cache that only grows over two steps only grows over both |
| Helpers.FallbackImage | src/services/realApis.js:309-376 | a listed country gets its curated image and an unlisted one the generic image; never empty |
| Helpers.CityForCountry | src/services/realApis.js:272-305 | a listed country gets its table city; any other name is its own city |
| Helpers.AllowListedCitiesDiffer | src/services/realApis.js:272-305 | every allow-listed country is shown under its table city, which is never the country's own name |
| Helpers.ConfiguredCases | src/services/realApis.js:13-16 | a missing key, the empty key and the placeholder key are unusable; any other key is usable |
| Helpers.CountryDescription | src/services/realApis.js:379-407 | the curated text for the ten described countries, else the templated sentence naming the country |
| Helpers.CuratedDescriptionsFirstTen | src/services/realApis.js:379-407 | an allow-listed country gets curated text exactly when it is one of the first ten |
| Helpers.GenerateRating | src/services/realApis.js:99-139 | a listed country gets exactly its table value, with no jitter; any other gets 4.3 + 0.4·random, in [4.3, 4.7) |
| Helpers.RatingBounds | src/services/realApis.js:100-131 | every table rating lies in [4.2, 4.9] |
| Helpers.TablesCoverAllowList | src/services/realApis.js:150-181 | each of the 30 allow-listed names has a city, a curated image and a table rating |
| Helpers.TablesOnlyAllowList | src/services/realApis.js:273-304 | the city, image, rating and description tables have no key outside the allow-list |
| Helpers.DescriptionsCoverFirstTen | src/services/realApis.js:380-401 | the descriptions cover exactly the first ten allow-listed countries |
| CountriesApi.AllowListed | src/services/realApis.js:183-185 | the kept records are allow-listed and no more than the provider sent |
| CountriesApi.AllowListedMembers | src/services/realApis.js:183-185 | a record is kept exactly when it was sent and its common name is allow-listed |
| CountriesApi.AllowListedKeepsOrder | src/services/realApis.js:183-185 | the filter keeps provider order: it distributes over concatenation |
| CountriesApi.AllowListedLocationShape | src/services/realApis.js:194-206 | a kept record has id = country = common name, its table city as name, and its table rating |
| CountriesApi.CountryLocation | src/services/realApis.js:194-206 | id and country are the common name, the name is its city, the description is the country's, the image is the given one; each coordinate is latlng's entry when present and 0 otherwise; the rating lies in [4.2, 4.9] and is the table value for a listed country; currency and language are the first listed, else none |
| CountriesApi.ByNameLocation | src/services/realApis.js:225-239 | the by-name record is the list record except for the coordinates: latlng[0] and latlng[1] when present, undefined past the end of latlng |
| CountriesApi.ByNameAgreesWithList | src/services/realApis.js:194-239 | the by-name and list records of one country agree exactly when latlng has both coordinates |
| CountriesApi.ResolveEach | src/services/realApis.js:188-208 | one image per name, each cached under that name; a name whose key was neither cached nor met earlier in the list gets the URL ResolveMiss gives; the keys added are exactly the lower-cased names; no entry changes |
| CountriesApi.GetAllCountries | src/services/realApis.js:143-215 | a failure returns the seed list unchanged and leaves the cache alone; otherwise one record per kept country, in order, whose images are the list ResolveEach promises for the kept names |
| CountriesApi.MatchesOwnName | src/services/realApis.js:244-249 | a record matches its own name or country in any case, and the empty needle matches every record |
| CountriesApi.SeedMatch | src/services/realApis.js:244-249 | a found entry is in the list and matches, and every entry before it does not; nothing is found exactly when no entry matches |
| CountriesApi.SeedMatchFindsOwnName | src/services/realApis.js:244-249 | searching for an entry's own name, in any case, finds an entry |
| CountriesApi.SyntheticLocation | src/services/realApis.js:254-266 | id, name and country are the name, the description is the "Discover the beautiful landscapes and rich culture of" sentence naming it, coordinates 0, no population, currency or language; the rating lies in [4.2, 4.9] and is the table value for a listed name |
| CountriesApi.ByNameFallback | src/services/realApis.js:241-266 | the first seed entry whose lower-cased country or name contains lower(name), with the cache untouched; else the synthetic record, its image cached and the new cache AfterResolve of the old one |
| CountriesApi.ProviderLocation | src/services/realApis.js:225-240 | the provider's first record is built as ByNameLocation when it has latlng; its image is looked up either way, and the new cache is AfterResolve of the old one |
| CountriesApi.GetCountryByName | src/services/realApis.js:217-268 | a usable provider record wins, built as ByNameLocation; otherwise the seed match, else the synthetic record; it always yields a location; the new cache is AfterByName of the old one |
| CountriesApi.AfterByName | src/services/realApis.js:217-268 | the provider's first record's key is added when there is one, the name's key only when a record is synthesised, and no entry changes |
| CountriesApi.AfterByNameIdempotent | src/services/realApis.js:5-10 | a second lookup of the same name with the same answers adds nothing to the cache |
| CountriesApi.SeedMatchParis | src/services/realApis.js:244-249 | the query "paris" finds the Paris seed entry |
| WeatherApi.WeatherIcon | src/services/realApis.js:417-436 | the table icon for the fifteen conditions, the default icon for any other; never empty |
| WeatherApi.SharedIcons | src/services/realApis.js:425-432 | mist, haze and fog share an icon; smoke, dust, sand, ash and squall share another |
| WeatherApi.IconTableConditions | src/services/realApis.js:418-434 | exactly the fifteen named conditions are in the table |
| WeatherApi.MockIndex | src/services/realApis.js:452 | floor(random · 4) indexes both the conditions and the icons |
| WeatherApi.MockWeather | src/services/realApis.js:448-463 | temperatures in [10, 40], humidity in [0, 100], wind in [0, 20], pressure 1013, visibility in [5000, 15000]; condition and icon share one index |
| WeatherApi.MockIconsFromTable | src/services/realApis.js:458 | the mock's icons are the table icons for clear, clouds, rain and snow |
| WeatherApi.MockConditionsNotInTable | src/services/realApis.js:451 | the mock's condition names are not provider conditions and would get the default icon |
| WeatherApi.GetWeather | src/services/realApis.js:410-465 | a usable report maps to rounded temperatures and wind in km/h with the condition's icon, other fields passed through; anything else gives the mock record |
| WeatherApi.IconMatchesCondition | src/services/realApis.js:438-463 | a live record's icon is its condition's icon; a mock record's is not |
| WeatherApi.RainyReport | src/services/realApis.js:439-444 | 18.4 °C rounds to 18, 3 m/s becomes 11 km/h, and rain gets the rain icon |
| JsMath.Round | src/services/realApis.js:439 | Math.round lies within half of its argument |
| JsMath.RoundIsNearest | src/services/realApis.js:439 | Math.round is the nearest integer, and equals every m with m − 0.5 ≤ x < m + 0.5 |
| PlacesApi.PlaceOf | src/services/realApis.js:483-488 | id and name copied; type is the kinds text before the first comma; distance within half a metre |
| PlacesApi.GetPlaces | src/services/realApis.js:468-494 | no key, the placeholder key, or a failure gives []; otherwise min(n, 10) places, with place i from feature i |
| PlacesApi.PlacesBounded | src/services/realApis.js:483 | never more than ten places |
| PlacesApi.SingleKind | src/services/realApis.js:486 | the type is the whole kinds text exactly when it has no comma |
| PlacesApi.KeepsFirstTen | src/services/realApis.js:483 | with ten or more features, only the first ten matter |
| PhotosApi.MockPhotoIds | src/services/realApis.js:562-563 | the table entry for the key, the Paris entry for an unknown key; always six ids |
| PhotosApi.MockPhotos | src/services/realApis.js:534-572 | six photos, photo i with id i, caption "name - Photo i+1" and the URL of the i-th id |
| PhotosApi.MockIdsAreIndices | src/services/realApis.js:566 | the fallback ids are "0" to "5" whatever the name |
| PhotosApi.MockUrlsIgnoreCase | src/services/realApis.js:562 | two names that lower-case alike get the same images |
| PhotosApi.UnknownKeyUsesParis | src/services/realApis.js:563 | an unknown key gets the Paris images |
| PhotosApi.KeyStopsAtComma | src/services/realApis.js:562 | only the text before the first comma selects the photos |
| PhotosApi.CityHasGallery | src/services/realApis.js:536-563 | a table city named with a suffix after a comma finds its own gallery |
| PhotosApi.SeedCitiesHaveGalleries | src/services/realApis.js:536-563 | "Paris, France", "Tokyo, Japan" and "New York, USA" find their own galleries |
| PhotosApi.TokyoRepeatsPhoto | src/services/realApis.js:547-550 | the tokyo table repeats one id, in the fourth and sixth places |
| PhotosApi.LivePhoto | src/services/realApis.js:518-525 | a search result maps field for field; its non-empty description is the caption, else the numbered caption |
| PhotosApi.GetPhotos | src/services/realApis.js:497-531 | no usable key or a failure gives the fallback gallery; otherwise one photo per result, in order |
| PhotosApi.GallerySize | src/services/realApis.js:498-529 | a gallery has six photos unless the search succeeded, then as many as it returned |
| PhotosApi.CaptionsAgree | src/services/realApis.js:518-568 | an untitled live photo at position i gets the fallback's i-th caption |
| LocationsApi.SearchFilter | src/services/api.js:11-14 | every kept location matches the lower-cased query, and none is added |
| LocationsApi.SearchFilterMembers | src/services/api.js:11-14 | a location is kept exactly when it is in the list and matches |
| LocationsApi.SelectLocations | src/services/api.js:10-31 | with a query, every result matches it; without one, at most twelve results, all in the ten popular countries |
| LocationsApi.LiveHitsWin | src/services/api.js:10-24 | a query with live matches gets exactly those matches, in order |
| LocationsApi.SeedHitsWhenNoLiveHit | src/services/api.js:17-22 | a query with no live match gets exactly the matching seed entries |
| LocationsApi.NoQueryDrawsFromList | src/services/api.js:28-31 | without a query every result comes from the live list |
| LocationsApi.SearchIgnoresCase | src/services/api.js:10-22 | queries equal up to case give the same answer |
| LocationsApi.EmptyQueryIsNoQuery | src/services/api.js:10 | the empty query lists popular destinations, like no query |
| LocationsApi.NoQueryKeepsOrder | src/services/api.js:29-31 | without a query the result is the popular prefix of the list: entries after twelve popular ones do not matter |
| LocationsApi.NoQueryOnSeed | src/services/api.js:28-31 | over the seed data the no-query listing is the eight entries with ids 1-4 and 7-10 |
| LocationsApi.SeedPopularity | src/constants/index.js:19-164 | which seed entries lie in the ten popular countries |
| LocationsApi.GetLocations | src/services/api.js:6-31 | a failed country request makes the seed list the source and leaves the cache alone; otherwise the source is one record per kept country, in order, with the images ResolveEach promises; the answer is the selection over it |
| LocationsApi.CatchFallback | src/services/api.js:32-42 | the error handler gives the filtered seed for a query and the whole seed without one |
| LocationsApi.CatchListsWholeSeed | src/services/api.js:32-42 | without a query the error handler would list twelve seed entries, where the normal path lists eight |
| LocationsApi.ListOfflineWithoutQuery | src/services/api.js:8-31 | offline and without a query, the listing has eight entries |
| LocationsApi.SeedById | src/services/api.js:52-58 | a found entry is in the seed list with that id; none is found only when no entry has it |
| LocationsApi.SeedIdsUnique | src/constants/index.js:19-164 | the seed ids are unique |
| LocationsApi.SeedByIdFindsEntry | src/services/api.js:58 | in a list with unique ids every entry is found by its own id |
| LocationsApi.GetLocation | src/services/api.js:45-64 | always succeeds with what getCountryByName returns: the provider record, the seed match by name, or the synthetic record; the cache is left as getCountryByName leaves it |
| LocationsApi.GetLocationTwice | src/services/api.js:45-49 | with the service answers held fixed and two independent random draws, opening an id twice gives locations that differ at most in the rating, identical when the rating comes from the table or the seed; the second call adds nothing to the cache |
| LocationsApi.SeedIdOneMatchesNoName | src/services/realApis.js:244-249 | no seed entry matches the query "1" by name or country |
| LocationsApi.FirstSeedIdIsNoName | src/constants/index.js:20-23 | the first seed entry has id "1", a name other than "1", and no entry matches "1" by name |
| LocationsApi.OpenFirstSeedOffline | src/services/api.js:45-53 | offline, opening the first entry by its id yields a synthetic record named after the id, not the entry |
| LocationsApi.GetLocationIntended | src/services/api.js:45-63 | offline, a seed id opens its own seed entry before any by-name fallback |
| LocationsApi.OpenSeedOfflineIntended | src/services/api.js:52-62 | with the correction every seed entry opens as itself while offline |
| Constants.SeedIdsDistinct | src/constants/index.js:19-164 | twelve seed entries with pairwise distinct ids |
| Constants.SeedNamesFirst | src/constants/index.js:19-91 | the name and country of seed entries 1 to 6 |
| Constants.SeedNamesLast | src/constants/index.js:92-164 | the name and country of seed entries 7 to 12 |
| Favorites.Without | src/store/favoritesStore.js:14-17 | the id no longer occurs, and every other id keeps its multiplicity |
| Favorites.WithoutKeepsOrder | src/store/favoritesStore.js:16 | removal distributes over concatenation, so the kept ids stay in order |
| Favorites.WithoutAbsent | src/store/favoritesStore.js:16 | removing an absent id changes nothing |
| Favorites.Toggled | src/store/favoritesStore.js:19-26 | an absent id is appended to the list; a present id is removed, every other id keeping its multiplicity |
| Favorites.ToggleFlips | src/store/favoritesStore.js:19-26 | toggling flips membership of that id and of no other |
| Favorites.ToggleAbsentAppends | src/store/favoritesStore.js:9-26 | toggling an absent id appends it and keeps the rest |
| Favorites.TogglePresentRemoves | src/store/favoritesStore.js:14-26 | toggling a present id removes every occurrence, keeps the other ids and shortens the list |
| Favorites.ToggleTwiceRestores | src/store/favoritesStore.js:9-26 | toggling an absent id twice restores the list exactly |
| Favorites.WithoutNoDuplicates | src/store/favoritesStore.js:14-17 | removal keeps a duplicate-free list duplicate-free |
| Favorites.ToggleKeepsNoDuplicates | src/store/favoritesStore.js:19-26 | toggling keeps a duplicate-free list duplicate-free |
| Favorites.AddCanDuplicate | src/store/favoritesStore.js:9-12 | adding a saved id creates a duplicate |
| Favorites.FavoritesStore.constructor | src/store/favoritesStore.js:7 | the list starts empty |
| Favorites.FavoritesStore.AddFavorite | src/store/favoritesStore.js:9-12 | the id is appended unconditionally |
| Favorites.FavoritesStore.RemoveFavorite | src/store/favoritesStore.js:14-17 | the list becomes the list without the id |
| Favorites.FavoritesStore.IsFavorite | src/store/favoritesStore.js:28-29 | true exactly when some position of the list holds the id |
| Favorites.FavoritesStore.ToggleFavorite | src/store/favoritesStore.js:19-26 | membership of the id flips, every other id's is unchanged, and a duplicate-free list stays so |
| Favorites.FavoritesStore.ClearFavorites | src/store/favoritesStore.js:31 | the list becomes empty |
| Favorites.ToggleTwice | src/store/favoritesStore.js:19-26 | two toggles of an unsaved id leave the store as it was |
| Auth.Merge | src/store/authStore.js:28 | each updated field takes its new value, every other old field is kept, and no other field appears |
| Auth.MergeIdempotent | src/store/authStore.js:27-29 | applying the same update twice is applying it once |
| Auth.MergeIntoNone | src/store/authStore.js:28 | merging into no user gives exactly the update |
| Auth.MergeNothing | src/store/authStore.js:28 | an empty update keeps the profile |
| Auth.AuthStore.constructor | src/store/authStore.js:8-9 | no user and not authenticated |
| Auth.AuthStore.Login | src/store/authStore.js:12-15 | the user is the data and the flag is set |
| Auth.AuthStore.Register | src/store/authStore.js:17-20 | the same effect as login |
| Auth.AuthStore.Logout | src/store/authStore.js:22-25 | no user and not authenticated, from any state |
| Auth.AuthStore.UpdateProfile | src/store/authStore.js:27-29 | the user becomes the merged profile and the flag is unchanged |
| Auth.LogoutTwice | src/store/authStore.js:22-25 | logging out twice ends as logging out once |
| Auth.UpdateWhileSignedOut | src/store/authStore.js:8-29 | an update while signed out stores a user with the flag still false, breaking "authenticated exactly when a user is present" |
| Ui.UiStore.constructor | src/store/uiStore.js:8-10 | empty query, no selection, panel closed |
| Ui.UiStore.SetSearchQuery | src/store/uiStore.js:13 | sets the query, nothing else changes |
| Ui.UiStore.SetSelectedLocation | src/store/uiStore.js:14 | sets the selection, nothing else changes |
| Ui.UiStore.ToggleSearch | src/store/uiStore.js:15 | negates the panel flag, nothing else changes |
| Ui.UiStore.ClearSearch | src/store/uiStore.js:16 | empties the query, nothing else changes |
| Ui.ToggleSearchTwice | src/store/uiStore.js:15 | two toggles restore every field |
| Ui.ClearIsSetEmpty | src/store/uiStore.js:13-16 | clearSearch and setSearchQuery("") have the same effect |
| Text.Lower | src/services/realApis.js:7 | same length, each character lower-cased |
| Text.LowerIdempotent | src/services/realApis.js:7 | lower-casing twice is lower-casing once |
| Text.LowerKeepsNonLetter | src/services/realApis.js:562 | lower-casing keeps exactly the non-letter characters, such as the comma |
| Text.ContainsIffOccurs | src/services/api.js:12 | includes holds exactly when the needle occurs at some position |
| Text.ContainsEmpty | src/services/api.js:12 | every string includes the empty string |
| Text.ContainsChar | src/services/api.js:12 | a one-character needle occurs exactly when the character does |
| Text.FirstToken | src/services/realApis.js:486 | split(sep)[0] is a prefix without sep, followed by sep or the end |
| Text.FirstTokenUnique | src/services/realApis.js:486 | those three properties determine the token |
| Text.DecimalString | src/services/realApis.js:566 | toString of a natural is a non-empty string of digits, one digit below ten |
| Seqs.Filter | src/services/api.js:11 | filter keeps only elements that pass and adds none |
| Seqs.FilterMembers | src/services/api.js:11 | an element is kept exactly when it is in the list and passes |
| Seqs.FilterAppend | src/services/api.js:11 | filter distributes over concatenation (it keeps order) |
| Seqs.FilterAll | src/services/api.js:11 | filtering a list whose elements all pass keeps it |
| Seqs.FilterNone | src/services/api.js:11 | filtering a list none of whose elements pass gives [] |
| Seqs.FilterFourTwoFourTwo | src/services/api.js:29-30 | filtering twelve elements of which the 5th, 6th, 11th and 12th fail keeps the other eight in order |
| Seqs.Take | src/services/api.js:31 | slice(0, n) has min(n, length) elements, each the original at its position |
| Seqs.FirstIndex | src/services/api.js:52 | the first satisfying position, or none when no element satisfies |
| Seqs.FindFirst | src/services/api.js:52 | find succeeds exactly when some element satisfies, with the first such element |
| Seqs.FindFirstAt | src/services/api.js:52 | a satisfying element with none before it is what find returns |

## Left out

- HTTP: fetchWithTimeout's abort timer, the status check and the JSON decoding are one abstract
  outcome per request. URL building and encodeURIComponent are not modelled, so the coordinates,
  radius and photo count that only go into a URL are not parameters.
- Concurrency: getAllCountries resolves its images with Promise.all. The model resolves them one
  after another in provider order. Two concurrent misses on one key, where both search, are not
  modelled.
- Randomness and floating point: Math.random values are parameters, numbers are exact reals, and
  no IEEE rounding is modelled.
- toLowerCase covers ASCII letters only.
- Object lookups `table[key] || default` are map lookups. Prototype keys such as "constructor",
  which JavaScript would find on any object, are not modelled.
- A weather report is modelled as the payload fields getWeather reads, all present. A payload
  missing `main` or `wind` throws in the source and falls back to the mock; the model writes it
  as a failed outcome.
- authStore: login, register and updateProfile take a profile of string fields. A null or non-object
  login argument is not modelled.
- The zustand persist and devtools middleware, localStorage, logging, the React Query hooks and
  all React components are not part of this model.
- LocationsApi.GetLocation: the source's checks after getCountryByName, the seed lookup by id and
  the two "not found" errors, can never run, because getCountryByName always returns a record. The
  model states that it always succeeds and does not model those dead branches. The outer error
  handler of getLocations is unreachable for the same reason; LocationsApi.CatchFallback states
  what it would return.
- Offline and without a query, the normal path lists the eight popular seed entries, not all
  twelve (LocationsApi.NoQueryOnSeed). The twelve-entry list exists only in the outer error
  handler, which cannot be reached (LocationsApi.CatchListsWholeSeed).
- LocationsApi.GetLocationTwice: when the rating is drawn from Math.random (a provider country or
  a synthesised name outside the rating table), the two calls may differ in the rating, since each
  call draws afresh; the contract promises equality of everything else.
- Ratings of listed countries carry no jitter: the source's "±0.1 variation" comment is not
  implemented, and the model follows the code.

## Findings

| source | as written | input that shows it | evidently intended | confidence | as-written member | corrected member |
|---|---|---|---|---|---|---|
| src/services/api.js:45-63 | getLocation(id) asks getCountryByName(id) first. That never fails, so the lookup of the seed entry by id is unreachable | with the country service down, getLocation("1") (the Paris seed entry) finds no seed name containing "1" and returns a made-up record named "1" | a seed id opens its own seed entry when the service has no usable record | not executed | LocationsApi.GetLocation, LocationsApi.SeedIdOneMatchesNoName, LocationsApi.OpenFirstSeedOffline | LocationsApi.GetLocationIntended, LocationsApi.OpenSeedOfflineIntended |
