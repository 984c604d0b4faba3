/** The image resolution cache of getUnsplashImageForCountry: a memo from the
    lower-cased place name to the resolved image URL, filled by trying five photo
    searches in order and falling back to the curated image table. */
module Images {
  import opened Outcomes
  import opened Text
  import opened Seqs
  import opened Helpers

  /** The photo search oracle: the outcome of the single-result search for a query,
      as the list of `urls.regular` of the returned results. */
  type PhotoSearch = string -> Fetched<seq<string>>

  /** Appended to the provider's regular-size URL. */
  const CropSuffix: string := "&w=500&h=400&fit=crop&crop=entropy&q=80"

  /** The five query variants, in the order they are tried. */
  function Variants(country: string): (qs: seq<string>)
    ensures |qs| == 5
    ensures qs[1] == country + " landscape" && qs[3] == country + " tourism"
    ensures country in CityTable ==>
      qs[0] == CityTable[country] + " travel" && qs[2] == CityTable[country] + " city" &&
      qs[4] == CityTable[country] + " landmarks"
    ensures country !in CityTable ==>
      qs[0] == country + " travel" && qs[2] == country + " city" && qs[4] == country + " landmarks"
  {
    var city := CityForCountry(country);
    [city + " travel", country + " landscape", city + " city", country + " tourism", city + " landmarks"]
  }

  /** A search outcome that supplies an image: a response with at least one result. */
  predicate IsHit(outcome: Fetched<seq<string>>)
  {
    outcome.Ok? && |outcome.payload| > 0
  }

  /** The position of the first query whose search supplies an image. */
  function FirstHit(qs: seq<string>, search: PhotoSearch): Option<nat>
  {
    FirstIndex(qs, q => IsHit(search(q)))
  }

  /** A hit at position i with only misses before it is the first hit. */
  lemma FirstHitAt(qs: seq<string>, search: PhotoSearch, i: nat)
    requires i < |qs| && IsHit(search(qs[i]))
    requires forall j :: 0 <= j < i ==> !IsHit(search(qs[j]))
    ensures FirstHit(qs, search) == Some(i)
  {
    var k := FirstHit(qs, search);
    assert k.Some?;
    assert k.value == i;
  }

  /** What a cache miss resolves to: the URL, and the queries sent, in order. */
  datatype Resolution = Resolution(url: string, queried: seq<string>)

  /** The resolution of a name that is not cached yet. */
  function ResolveMiss(country: string, accessKey: Option<string>, search: PhotoSearch): (r: Resolution)
    ensures |r.url| > 0
    ensures |r.queried| <= 5 && r.queried == Variants(country)[..|r.queried|]
  {
    if !Configured(accessKey, UnsplashPlaceholder) then Resolution(FallbackImage(country), [])
    else
      var qs := Variants(country);
      match FirstHit(qs, search)
      case Some(i) => Resolution(search(qs[i]).payload[0] + CropSuffix, qs[..i + 1])
      case None => Resolution(FallbackImage(country), qs)
  }

  /** Without a usable access key no search is sent and the curated image is used. */
  lemma UnconfiguredUsesFallback(country: string, accessKey: Option<string>, search: PhotoSearch)
    requires !Configured(accessKey, UnsplashPlaceholder)
    ensures ResolveMiss(country, accessKey, search) == Resolution(FallbackImage(country), [])
  {
  }

  /** The first variant whose search returns a result supplies the image, and
      exactly the variants up to it are queried; failing or empty searches before
      it are skipped. */
  lemma FirstHitWins(country: string, accessKey: Option<string>, search: PhotoSearch, i: nat)
    requires Configured(accessKey, UnsplashPlaceholder)
    requires i < 5 && IsHit(search(Variants(country)[i]))
    requires forall j :: 0 <= j < i ==> !IsHit(search(Variants(country)[j]))
    ensures ResolveMiss(country, accessKey, search)
         == Resolution(search(Variants(country)[i]).payload[0] + CropSuffix, Variants(country)[..i + 1])
  {
    FirstHitAt(Variants(country), search, i);
  }

  /** When all five searches fail or come back empty, all five are queried and
      the curated image is used. */
  lemma AllMissesUseFallback(country: string, accessKey: Option<string>, search: PhotoSearch)
    requires Configured(accessKey, UnsplashPlaceholder)
    requires forall j :: 0 <= j < 5 ==> !IsHit(search(Variants(country)[j]))
    ensures ResolveMiss(country, accessKey, search) == Resolution(FallbackImage(country), Variants(country))
  {
    var k := FirstHit(Variants(country), search);
    assert k.None?;
  }

  /** `after` extends `before`: no key is removed or rebound. */
  predicate Extends(before: map<string, string>, after: map<string, string>)
  {
    forall k :: k in before ==> k in after && after[k] == before[k]
  }

  /** The entry for `name` holds `url`. */
  predicate CachedAs(entries: map<string, string>, name: string, url: string)
  {
    Lower(name) in entries && entries[Lower(name)] == url
  }

  /** An entry, once written, survives every later extension. */
  lemma CachedAsPersists(before: map<string, string>, after: map<string, string>, name: string, url: string)
    requires Extends(before, after) && CachedAs(before, name, url)
    ensures CachedAs(after, name, url)
  {
  }

  lemma ExtendsTransitive(a: map<string, string>, b: map<string, string>, c: map<string, string>)
    requires Extends(a, b) && Extends(b, c)
    ensures Extends(a, c)
  {
  }

  /** The keys a list of names is cached under. */
  function KeysOf(names: seq<string>): set<string>
  {
    set i | 0 <= i < |names| :: Lower(names[i])
  }

  /** No name resolved yet adds no key. */
  lemma KeysOfNone(start: map<string, string>, names: seq<string>)
    ensures start.Keys == start.Keys + KeysOf(names[..0])
  {
    assert KeysOf(names[..0]) == {};
  }

  /** One more name adds its lower-cased key to the keys of the names before it. */
  lemma KeysOfPrefix(names: seq<string>, n: nat)
    requires n < |names|
    ensures KeysOf(names[..n + 1]) == KeysOf(names[..n]) + {Lower(names[n])}
  {
    var longer, shorter := names[..n + 1], names[..n];
    forall x | x in KeysOf(longer) ensures x in KeysOf(shorter) + {Lower(names[n])} {
      var i :| 0 <= i < |longer| && x == Lower(longer[i]);
      if i < n {
        assert shorter[i] == longer[i];
      }
    }
    forall i | 0 <= i < |shorter| ensures Lower(shorter[i]) in KeysOf(longer) {
      assert longer[i] == shorter[i];
    }
  }

  /** Resolving the next name of a list keeps the cache's keys equal to the keys it
      started with plus those of the names resolved so far. */
  lemma KeysStep(start: map<string, string>, before: map<string, string>, after: map<string, string>,
                 names: seq<string>, n: nat)
    requires n < |names|
    requires before.Keys == start.Keys + KeysOf(names[..n])
    requires after.Keys == before.Keys + {Lower(names[n])}
    ensures after.Keys == start.Keys + KeysOf(names[..n + 1])
  {
    KeysOfPrefix(names, n);
  }

  /** The cache after looking `name` up: unchanged when its key is present, else
      with the key Lower(name) added, bound to the URL the miss resolves to. */
  function AfterResolve(entries: map<string, string>, name: string, accessKey: Option<string>,
                        search: PhotoSearch): (after: map<string, string>)
    ensures after.Keys == entries.Keys + {Lower(name)}
    ensures Extends(entries, after)
    ensures Lower(name) !in entries ==> after[Lower(name)] == ResolveMiss(name, accessKey, search).url
  {
    if Lower(name) in entries then entries
    else entries[Lower(name) := ResolveMiss(name, accessKey, search).url]
  }

  /** The URLs cache misses on the names resolve to, in list order. */
  function MissUrls(names: seq<string>, accessKey: Option<string>, search: PhotoSearch): (urls: seq<string>)
    ensures |urls| == |names|
    ensures forall i :: 0 <= i < |names| ==> urls[i] == ResolveMiss(names[i], accessKey, search).url
  {
    if |names| == 0 then []
    else [ResolveMiss(names[0], accessKey, search).url] + MissUrls(names[1..], accessKey, search)
  }

  /** The i-th name is the first of the list with its key, and that key was not
      cached before the list was resolved: its image is then searched for. */
  predicate FreshAt(entries: map<string, string>, names: seq<string>, i: nat)
    requires i < |names|
  {
    Lower(names[i]) !in entries && forall j :: 0 <= j < i ==> Lower(names[j]) != Lower(names[i])
  }

  /** What resolving the first |urls| names of a list, from a cache holding
      `start`, leaves: each URL is the cached one, a fresh name's URL is the
      searched one, the keys added are those of the names, and no entry of
      `start` changed. */
  predicate Progress(start: map<string, string>, entries: map<string, string>, names: seq<string>,
                     urls: seq<string>, expected: seq<string>)
  {
    |urls| <= |names| && |expected| == |names| &&
    (forall j :: 0 <= j < |urls| ==> CachedAs(entries, names[j], urls[j])) &&
    (forall j :: 0 <= j < |urls| && FreshAt(start, names, j) ==> urls[j] == expected[j]) &&
    entries.Keys == start.Keys + KeysOf(names[..|urls|]) &&
    Extends(start, entries)
  }

  /** The next name, when fresh, finds no key left by the names before it. */
  lemma FreshNotCached(start: map<string, string>, before: map<string, string>, names: seq<string>, n: nat)
    requires n < |names| && before.Keys == start.Keys + KeysOf(names[..n])
    requires FreshAt(start, names, n)
    ensures Lower(names[n]) !in before
  {
    forall k | k in KeysOf(names[..n]) ensures k != Lower(names[n]) {
      var j :| 0 <= j < n && k == Lower(names[..n][j]);
      assert names[..n][j] == names[j];
    }
  }

  /** Resolving the next name of the list keeps every fresh name's URL the searched one. */
  lemma FreshStep(start: map<string, string>, before: map<string, string>, names: seq<string>,
                  urls: seq<string>, url: string, expected: seq<string>)
    requires |urls| < |names| == |expected| && before.Keys == start.Keys + KeysOf(names[..|urls|])
    requires forall j :: 0 <= j < |urls| && FreshAt(start, names, j) ==> urls[j] == expected[j]
    requires Lower(names[|urls|]) !in before ==> url == expected[|urls|]
    ensures forall j :: 0 <= j < |urls| + 1 && FreshAt(start, names, j) ==>
                          (urls + [url])[j] == expected[j]
  {
    if FreshAt(start, names, |urls|) {
      FreshNotCached(start, before, names, |urls|);
    }
  }

  /** Resolving the next name of the list keeps every earlier URL cached. */
  lemma CachedStep(before: map<string, string>, after: map<string, string>, names: seq<string>,
                   urls: seq<string>, url: string)
    requires |urls| < |names| && Extends(before, after) && CachedAs(after, names[|urls|], url)
    requires forall j :: 0 <= j < |urls| ==> CachedAs(before, names[j], urls[j])
    ensures forall j :: 0 <= j < |urls| + 1 ==> CachedAs(after, names[j], (urls + [url])[j])
  {
    forall j | 0 <= j < |urls| + 1 ensures CachedAs(after, names[j], (urls + [url])[j]) {
      if j < |urls| {
        CachedAsPersists(before, after, names[j], urls[j]);
      }
    }
  }

  /** Resolving the next name of the list, with the outcome Resolve promises,
      keeps Progress. */
  lemma ProgressStep(start: map<string, string>, before: map<string, string>, after: map<string, string>,
                     names: seq<string>, urls: seq<string>, url: string,
                     expected: seq<string>)
    requires Progress(start, before, names, urls, expected) && |urls| < |names|
    requires Extends(before, after) && CachedAs(after, names[|urls|], url)
    requires after.Keys == before.Keys + {Lower(names[|urls|])}
    requires Lower(names[|urls|]) !in before ==> url == expected[|urls|]
    ensures Progress(start, after, names, urls + [url], expected)
  {
    var urls' := urls + [url];
    assert |urls'| == |urls| + 1;
    CachedStep(before, after, names, urls, url);
    FreshStep(start, before, names, urls, url, expected);
    KeysStep(start, before, after, names, |urls|);
    assert after.Keys == start.Keys + KeysOf(names[..|urls'|]);
    ExtendsTransitive(start, before, after);
  }

  /** A list of names looked up one after the other, from a cache holding `start`
      to one holding `entries`, with `urls` the answers: each URL is the one cached
      for its name, the first occurrence of a key that was not cached is the URL
      ResolveMiss gives, the keys added are exactly the lower-cased names, and no
      entry of `start` changed. */
  predicate ResolvedList(start: map<string, string>, entries: map<string, string>, names: seq<string>,
                         urls: seq<string>, accessKey: Option<string>, search: PhotoSearch)
  {
    |urls| == |names| &&
    (forall i :: 0 <= i < |names| ==> CachedAs(entries, names[i], urls[i])) &&
    (forall i :: 0 <= i < |names| && FreshAt(start, names, i) ==>
                   urls[i] == ResolveMiss(names[i], accessKey, search).url) &&
    entries.Keys == start.Keys + KeysOf(names) &&
    Extends(start, entries)
  }

  /** A whole list resolved with Progress kept is ResolvedList. */
  lemma ProgressDone(start: map<string, string>, entries: map<string, string>, names: seq<string>,
                     urls: seq<string>, accessKey: Option<string>, search: PhotoSearch)
    requires Progress(start, entries, names, urls, MissUrls(names, accessKey, search)) && |urls| == |names|
    ensures ResolvedList(start, entries, names, urls, accessKey, search)
  {
    assert names[..|urls|] == names;
  }

  class ImageCache {
    var entries: map<string, string>

    constructor ()
      ensures entries == map[]
    {
      entries := map[];
    }

    /** getUnsplashImageForCountry. A cached key answers at once with no search;
        otherwise the key Lower(country) alone is added, bound to the resolved URL. */
    method Resolve(country: string, accessKey: Option<string>, search: PhotoSearch)
      returns (url: string, queried: seq<string>)
      modifies this
      ensures Lower(country) in old(entries) ==>
                url == old(entries)[Lower(country)] && queried == [] && entries == old(entries)
      ensures Lower(country) !in old(entries) ==>
                Resolution(url, queried) == ResolveMiss(country, accessKey, search) &&
                entries == old(entries)[Lower(country) := url]
      ensures Extends(old(entries), entries) && CachedAs(entries, country, url)
      ensures entries == AfterResolve(old(entries), country, accessKey, search)
    {
      var key := Lower(country);
      if key in entries {
        return entries[key], [];
      }
      if !Configured(accessKey, UnsplashPlaceholder) {
        url, queried := FallbackImage(country), [];
        UnconfiguredUsesFallback(country, accessKey, search);
      } else {
        url, queried := SearchVariants(country, accessKey, search);
      }
      entries := entries[key := url];
    }
  }

  /** The searches of a cache miss, sent in order and stopping at the first one
      that returns a result: where the first hit is, the first result URL it
      returned, and the queries sent. */
  method SearchInOrder(qs: seq<string>, search: PhotoSearch)
    returns (hit: Option<nat>, first: string, queried: seq<string>)
    ensures hit == FirstHit(qs, search)
    ensures hit.Some? ==> first == search(qs[hit.value]).payload[0] && queried == qs[..hit.value + 1]
    ensures hit.None? ==> queried == qs
  {
    queried := [];
    var i := 0;
    while i < |qs|
      invariant 0 <= i <= |qs|
      invariant queried == qs[..i]
      invariant forall j :: 0 <= j < i ==> !IsHit(search(qs[j]))
    {
      var response := search(qs[i]);
      queried := queried + [qs[i]];
      if response.Ok? && |response.payload| > 0 {
        FirstHitAt(qs, search, i);
        return Some(i), response.payload[0], queried;
      }
      i := i + 1;
    }
    assert queried == qs;
    hit, first := None, "";
  }

  /** A cache miss with a usable key: the five variants are searched in order;
      the first result found, with the crop suffix, or else the curated image. */
  method SearchVariants(country: string, accessKey: Option<string>, search: PhotoSearch)
    returns (url: string, queried: seq<string>)
    requires Configured(accessKey, UnsplashPlaceholder)
    ensures Resolution(url, queried) == ResolveMiss(country, accessKey, search)
  {
    var hit, first;
    hit, first, queried := SearchInOrder(Variants(country), search);
    if hit.Some? {
      url := first + CropSuffix;
    } else {
      url := FallbackImage(country);
    }
  }

  /** Two names that differ only in letter case share one cache entry: the second
      call issues no search and returns the first call's URL. */
  method ResolveTwiceIgnoringCase(cache: ImageCache, a: string, b: string,
                                  accessKey: Option<string>, search: PhotoSearch)
    returns (first: string, second: string, secondQueried: seq<string>)
    requires Lower(a) == Lower(b)
    modifies cache
    ensures first == second && secondQueried == []
  {
    var firstQueried;
    first, firstQueried := cache.Resolve(a, accessKey, search);
    second, secondQueried := cache.Resolve(b, accessKey, search);
  }
}
