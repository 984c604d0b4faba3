/** placesAPI.getPlaces: points of interest around a coordinate, from the
    OpenTripMap radius search. */
module PlacesApi {
  import opened Outcomes
  import opened Text
  import opened Seqs
  import opened Helpers
  import opened JsMath

  /** The `properties` of one feature of the radius search. */
  datatype Feature = Feature(xid: string, name: string, kinds: string, dist: real)

  /** A place as the UI shows it; `kind` is the source's `type` field. */
  datatype Place = Place(id: string, name: string, kind: string, distance: int)

  /** At most this many features are kept. */
  const PlacesLimit: nat := 10

  /** One feature mapped to a place: its first listed kind and its distance in
      whole metres, rounded to nearest. */
  function PlaceOf(f: Feature): (p: Place)
    ensures p.id == f.xid && p.name == f.name
    ensures IsPrefix(p.kind, f.kinds) && ',' !in p.kind
    ensures |p.kind| == |f.kinds| || f.kinds[|p.kind|] == ','
    ensures f.dist - 0.5 < p.distance as real <= f.dist + 0.5
  {
    Place(f.xid, f.name, FirstToken(f.kinds, ','), Round(f.dist))
  }

  /** getPlaces(lat, lon, radius). No request and no result without a usable key;
      a failed request also gives none; otherwise the first ten features, in the
      provider's order. */
  function GetPlaces(apiKey: Option<string>, response: Fetched<seq<Feature>>): (ps: seq<Place>)
    ensures !Configured(apiKey, OpenTripMapPlaceholder) || response.Err? ==> ps == []
    ensures Configured(apiKey, OpenTripMapPlaceholder) && response.Ok? ==>
      |ps| == (if |response.payload| < PlacesLimit then |response.payload| else PlacesLimit) &&
      forall i :: 0 <= i < |ps| ==> ps[i] == PlaceOf(response.payload[i])
  {
    if !Configured(apiKey, OpenTripMapPlaceholder) then []
    else match response
      case Err(_) => []
      case Ok(features) =>
        var kept := Take(features, PlacesLimit);
        seq(|kept|, i requires 0 <= i < |kept| => PlaceOf(kept[i]))
  }

  /** Never more than ten places. */
  lemma PlacesBounded(apiKey: Option<string>, response: Fetched<seq<Feature>>)
    ensures |GetPlaces(apiKey, response)| <= PlacesLimit
  {
  }

  /** A place's kind is the whole kinds list exactly when that list has one entry. */
  lemma {:induction false} SingleKind(f: Feature)
    ensures PlaceOf(f).kind == f.kinds <==> ',' !in f.kinds
  {
    var t := FirstToken(f.kinds, ',');
    if ',' !in f.kinds {
      assert |t| == |f.kinds|;
      assert t == f.kinds[..|t|];
    }
  }

  /** A request that yields more features than the limit keeps exactly the first ten. */
  lemma KeepsFirstTen(apiKey: Option<string>, features: seq<Feature>)
    requires Configured(apiKey, OpenTripMapPlaceholder) && |features| >= PlacesLimit
    ensures GetPlaces(apiKey, Ok(features)) == GetPlaces(apiKey, Ok(features[..PlacesLimit]))
  {
    var a := GetPlaces(apiKey, Ok(features));
    var b := GetPlaces(apiKey, Ok(features[..PlacesLimit]));
    assert |a| == |b|;
    assert forall i :: 0 <= i < |a| ==> a[i] == b[i];
  }
}
