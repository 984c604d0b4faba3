/** photosAPI.getPhotos and its fallback getMockUnsplashPhotos: a gallery of six
    landscape photos for a place, from the photo search or from a small table of
    known photo ids. */
module PhotosApi {
  import opened Outcomes
  import opened Text
  import opened Helpers

  /** A gallery entry as the UI shows it. */
  datatype Photo = Photo(id: string, url: string, alt: string,
                         photographer: string, photographerUrl: string, color: string)

  /** The fields of one search result that getPhotos reads: `id`, `urls.regular`,
      `alt_description` (absent or null on many photos), `user.name`,
      `user.links.html` and `color`. */
  datatype PhotoResult = PhotoResult(id: string, regularUrl: string,
                                     altDescription: Option<string>,
                                     userName: string, userLink: string, color: string)

  /** The number of photos the gallery asks for and the fallback always returns. */
  const GalleryCount: nat := 6

  /** Appended to a search result's regular-size URL. */
  const GallerySuffix: string := "&w=800&h=600&fit=crop" + "&crop=entropy&q=80"
  const PhotoUrlPrefix: string := "https://images." + "unsplash.com/photo-"
  const MockUrlSuffix: string := "?w=800&h=600&fit=crop" + "&crop=entropy&auto=format" + "&q=80"

  /** The known photo ids, keyed by lower-case city name. */
  const PhotoTable: map<string, seq<string>> := map[
    "paris" := [
      "1502602898536-47ad22581b52",
      "1522093007474-86b3541f1d6b",
      "1499852848445-1d1b0c5b0e0e",
      "1506905925346-21bda4d32df4",
      "1537953773345-d172ccf13cf1",
      "1570077188670-e3a8d69ac5ff"],
    "tokyo" := [
      "1540959733332-0b10c5c066f2",
      "1490806842257-5f2d0e6e3c1a",
      "1503899036-87c9e15b2a8c",
      "1513584684386-9a1e6b6c5c8d",
      "1528164344702-4b0e1e6c8a9b",
      "1513584684386-9a1e6b6c5c8d"],
    "new york" := [
      "1496442226666-8d4d0e62e6e9",
      "1518391846015-6c8a8a5a5a5a",
      "1506905925346-21bda4d32df4",
      "1537953773345-d172ccf13cf1",
      "1570077188670-e3a8d69ac5ff",
      "1522093007474-86b3541f1d6b"]
  ]

  /** `${locationName} - Photo ${index + 1}`. */
  function AltText(name: string, i: nat): string
  {
    name + " - Photo " + DecimalString(i + 1)
  }

  /** locationName.toLowerCase().split(",")[0]: the lower-cased text before the
      first comma. */
  function PhotoKey(name: string): string
  {
    FirstToken(Lower(name), ',')
  }

  /** The ids for a name: its table entry, or the Paris entry for any other key. */
  function MockPhotoIds(name: string): (ids: seq<string>)
    ensures |ids| == GalleryCount
    ensures PhotoKey(name) in PhotoTable ==> ids == PhotoTable[PhotoKey(name)]
    ensures PhotoKey(name) !in PhotoTable ==> ids == PhotoTable["paris"]
  {
    var key := PhotoKey(name);
    if key in PhotoTable then PhotoTable[key] else PhotoTable["paris"]
  }

  /** getMockUnsplashPhotos(locationName): one photo per id, numbered from zero. */
  function MockPhotos(name: string): (ps: seq<Photo>)
    ensures |ps| == GalleryCount
    ensures forall i :: 0 <= i < |ps| ==>
      ps[i].id == DecimalString(i) && ps[i].alt == AltText(name, i) &&
      ps[i].url == PhotoUrlPrefix + MockPhotoIds(name)[i] + MockUrlSuffix &&
      ps[i].photographer == "Unsplash Photographer" &&
      ps[i].photographerUrl == "https://unsplash.com" && ps[i].color == "#3B82F6"
  {
    var ids := MockPhotoIds(name);
    seq(|ids|, i requires 0 <= i < |ids| =>
      Photo(DecimalString(i), PhotoUrlPrefix + ids[i] + MockUrlSuffix, AltText(name, i),
            "Unsplash Photographer", "https://unsplash.com", "#3B82F6"))
  }

  /** The fallback gallery's ids are "0" to "5", whatever the name. */
  lemma MockIdsAreIndices(name: string)
    ensures |MockPhotos(name)| == 6
    ensures forall i :: 0 <= i < 6 ==> MockPhotos(name)[i].id == [DigitChar(i)]
  {
  }

  /** The fallback's images depend only on the lower-cased name: two spellings
      of one name get the same photos. */
  lemma MockUrlsIgnoreCase(a: string, b: string)
    requires Lower(a) == Lower(b)
    ensures forall i :: 0 <= i < GalleryCount ==> MockPhotos(a)[i].url == MockPhotos(b)[i].url
  {
  }

  /** A name whose key is not in the table gets the Paris photos. */
  lemma UnknownKeyUsesParis(name: string)
    requires PhotoKey(name) !in PhotoTable
    ensures forall i :: 0 <= i < GalleryCount ==> MockPhotos(name)[i].url == MockPhotos("paris")[i].url
  {
    assert PhotoKey("paris") == "paris";
  }

  /** Only the part before the first comma selects the photos: a seed entry's
      name with its country suffix finds its city's entry. */
  lemma {:induction false} KeyStopsAtComma(city: string, rest: string)
    requires ',' !in city
    ensures PhotoKey(city + "," + rest) == Lower(city)
  {
    var s := Lower(city + "," + rest);
    assert s[|city|] == ',';
    assert forall c :: c in Lower(city) ==> c != ',' by {
      LowerKeepsNonLetter(city, ',');
    }
    assert s[..|city|] == Lower(city);
    FirstTokenUnique(s, ',', Lower(city));
  }

  /** A city of the table, named with a suffix after a comma (as the seed names
      carry their country), finds its own gallery. */
  lemma CityHasGallery(city: string, rest: string)
    requires ',' !in city && Lower(city) in PhotoTable
    ensures MockPhotoIds(city + "," + rest) == PhotoTable[Lower(city)]
  {
    KeyStopsAtComma(city, rest);
  }

  /** The seed destinations Paris, Tokyo and New York, named as the seed names
      them, find their own galleries. */
  lemma SeedCitiesHaveGalleries()
    ensures MockPhotoIds("Paris, France") == PhotoTable["paris"]
    ensures MockPhotoIds("Tokyo, Japan") == PhotoTable["tokyo"]
    ensures MockPhotoIds("New York, USA") == PhotoTable["new york"]
  {
    assert Lower("Paris") == "paris" && Lower("Tokyo") == "tokyo" && Lower("New York") == "new york";
    CityHasGallery("Paris", " France");
    assert "Paris" + "," + " France" == "Paris, France";
    CityHasGallery("Tokyo", " Japan");
    assert "Tokyo" + "," + " Japan" == "Tokyo, Japan";
    CityHasGallery("New York", " USA");
    assert "New York" + "," + " USA" == "New York, USA";
  }

  /** The table as written lists one Tokyo photo twice, so the Tokyo gallery
      shows the same image in the fourth and sixth places. */
  lemma TokyoRepeatsPhoto()
    ensures MockPhotoIds("tokyo")[3] == MockPhotoIds("tokyo")[5]
  {
    assert PhotoKey("tokyo") == "tokyo";
  }

  /** One search result mapped to a gallery entry: its own description as alt
      text when it has a non-empty one, else the numbered caption. */
  function LivePhoto(name: string, i: nat, p: PhotoResult): (ph: Photo)
    ensures ph.id == p.id && ph.url == p.regularUrl + GallerySuffix
    ensures ph.photographer == p.userName && ph.photographerUrl == p.userLink && ph.color == p.color
    ensures p.altDescription.Some? && p.altDescription.value != "" ==> ph.alt == p.altDescription.value
    ensures p.altDescription.None? || p.altDescription.value == "" ==> ph.alt == AltText(name, i)
  {
    var alt := if p.altDescription.Some? && p.altDescription.value != "" then p.altDescription.value
               else AltText(name, i);
    Photo(p.id, p.regularUrl + GallerySuffix, alt, p.userName, p.userLink, p.color)
  }

  /** getPhotos(locationName). Without a usable key no request is sent and the
      fallback gallery is returned; a failed request also falls back; otherwise
      every result is mapped, in order. */
  function GetPhotos(accessKey: Option<string>, name: string, response: Fetched<seq<PhotoResult>>)
    : (ps: seq<Photo>)
    ensures !Configured(accessKey, UnsplashPlaceholder) || response.Err? ==> ps == MockPhotos(name)
    ensures Configured(accessKey, UnsplashPlaceholder) && response.Ok? ==>
      |ps| == |response.payload| &&
      forall i :: 0 <= i < |ps| ==> ps[i] == LivePhoto(name, i, response.payload[i])
  {
    if !Configured(accessKey, UnsplashPlaceholder) then MockPhotos(name)
    else match response
      case Err(_) => MockPhotos(name)
      case Ok(results) =>
        seq(|results|, i requires 0 <= i < |results| => LivePhoto(name, i, results[i]))
  }

  /** Whatever happens, a gallery whose request fails has exactly six photos, and
      a successful one has as many as the provider returned. */
  lemma GallerySize(accessKey: Option<string>, name: string, response: Fetched<seq<PhotoResult>>)
    ensures |GetPhotos(accessKey, name, response)| ==
      if Configured(accessKey, UnsplashPlaceholder) && response.Ok? then |response.payload| else GalleryCount
  {
  }

  /** Live photos and fallback photos number their untitled captions alike:
      a live result without a description at position i gets the caption the
      fallback gives its i-th photo. */
  lemma CaptionsAgree(accessKey: Option<string>, name: string, results: seq<PhotoResult>, i: nat)
    requires Configured(accessKey, UnsplashPlaceholder)
    requires i < |results| && i < GalleryCount && results[i].altDescription.None?
    ensures GetPhotos(accessKey, name, Ok(results))[i].alt == MockPhotos(name)[i].alt
  {
  }
}
