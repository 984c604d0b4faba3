/** The Location record and the bundled seed dataset (MOCK_LOCATIONS) that
    every fallback path returns or searches. */
module Constants {
  import opened Outcomes

  /** One destination. Coordinates and rating are exact reals; a coordinate is
      None where the record holds `undefined` (the by-name lookup reads latlng[i]
      with no default). Population, currency and language are absent on seed
      entries and on synthesised records. */
  datatype Location = Location(
    id: string,
    name: string,
    country: string,
    description: string,
    latitude: Option<real>,
    longitude: Option<real>,
    rating: real,
    imageUrl: string,
    population: Option<int>,
    currency: Option<string>,
    language: Option<string>)

  function Seed(id: string, name: string, country: string, description: string,
                latitude: real, longitude: real, rating: real, imageUrl: string): Location
  {
    Location(id, name, country, description, Some(latitude), Some(longitude), rating, imageUrl, None, None, None)
  }

  const MockLocations: seq<Location> := [
    Seed("1", "Paris, France", "France",
      "The city of lights " + "and love, known for " + "its art, fashion, " + "and culture. Home " + "to the Eiffel Tower, " + "Louvre Museum, and " + "charming cafes along " + "the Seine River.",
      48.8566, 2.3522, 4.7,
      "https://plus.unsplash.com/" + "premium_photo-1661919210043-fd847a58" + "522d?ixlib=rb-4.1.0&" + "ixid=M3wxMjA3fDB8MHxzZWFyY2h8MXx8cGF" + "yaXMlMjBmcmFuY2V8ZW58MHx8MHx8fDA%3D&" + "auto=format&fit=crop&" + "q=60&w=500"),
    Seed("2", "Tokyo, Japan", "Japan",
      "A vibrant blend of " + "traditional culture " + "and cutting-edge technology. " + "Experience ancient " + "temples alongside " + "neon-lit streets and " + "world-class cuisine.",
      35.6762, 139.6503, 4.8,
      "https://images.unsplash.com/" + "photo-1556639118-e7d828188ff9?" + "ixlib=rb-4.1.0&ixid=M3wxMjA3fDB8MHxz" + "ZWFyY2h8MTh8fHRva3lvJTIwamFwYW58ZW58" + "MHx8MHx8fDA%3D&auto=format&" + "fit=crop&q=60&w=500"),
    Seed("3", "New York, USA", "United States",
      "The city that never " + "sleeps, famous for " + "its skyline and cultural " + "diversity. Visit Times " + "Square, Central Park, " + "and the Statue of " + "Liberty.",
      40.7128, -74.006, 4.6,
      "https://images.unsplash.com/" + "photo-1496442226666-8d4d0e62e6e9?" + "w=500&auto=format&" + "fit=crop&q=80"),
    Seed("4", "Santorini, Greece", "Greece",
      "Stunning island with " + "white buildings and " + "breathtaking sunsets. " + "Famous for its volcanic " + "beaches and crystal-clear " + "waters.",
      36.3932, 25.4615, 4.9,
      "https://images.unsplash.com/" + "photo-1570077188670-e3a8d69ac5ff?" + "w=500&auto=format&" + "fit=crop&q=80"),
    Seed("5", "Bali, Indonesia", "Indonesia",
      "Tropical paradise " + "known for its lush " + "landscapes and spiritual " + "culture. Discover " + "ancient temples, rice " + "terraces, and pristine " + "beaches.",
      -8.4095, 115.1889, 4.8,
      "https://images.unsplash.com/" + "photo-1537953773345-d172ccf13cf1?" + "w=500&auto=format&" + "fit=crop&q=80"),
    Seed("6", "Swiss Alps, Switzerland", "Switzerland",
      "Majestic mountains " + "and pristine landscapes " + "for outdoor adventures. " + "Perfect for skiing, " + "hiking, and enjoying " + "alpine scenery.",
      46.8182, 8.2275, 4.9,
      "https://images.unsplash.com/" + "photo-1506905925346-21bda4d32df4?" + "w=500&auto=format&" + "fit=crop&q=80"),
    Seed("7", "Rome, Italy", "Italy",
      "The Eternal City with " + "ancient history at " + "every corner. Explore " + "the Colosseum, Roman " + "Forum, and Vatican City.",
      41.9028, 12.4964, 4.7,
      "https://images.unsplash.com/" + "photo-1552832230-c0197dd311b5?" + "w=500&auto=format&" + "fit=crop&q=80"),
    Seed("8", "Kyoto, Japan", "Japan",
      "Cultural heart of " + "Japan with thousands " + "of temples and gardens. " + "Experience traditional " + "tea ceremonies and " + "geisha culture.",
      35.0116, 135.7681, 4.8,
      "https://images.unsplash.com/" + "photo-1493976040374-85c8e12f0c0e?" + "w=500&auto=format&" + "fit=crop&q=80"),
    Seed("9", "Barcelona, Spain", "Spain",
      "Vibrant city with " + "unique Gaud\U{00ED} architecture " + "and beautiful beaches. " + "Visit Sagrada Familia " + "and Park G\U{00FC}ell.",
      41.3851, 2.1734, 4.6,
      "https://images.unsplash.com/" + "photo-1583422409516-2895a77efded?" + "w=500&auto=format&" + "fit=crop&q=80"),
    Seed("10", "Sydney, Australia", "Australia",
      "Iconic harbor city " + "with the Opera House " + "and Harbour Bridge. " + "Enjoy beautiful beaches " + "and coastal walks.",
      -33.8688, 151.2093, 4.7,
      "https://images.unsplash.com/" + "photo-1506973035872-a4ec16b8e8d9?" + "w=500&auto=format&" + "fit=crop&q=80"),
    Seed("11", "Machu Picchu, Peru", "Peru",
      "Ancient Incan citadel " + "nestled in the Andes " + "mountains. One of " + "the most spectacular " + "archaeological sites " + "in the world.",
      -13.1631, -72.545, 4.9,
      "https://images.unsplash.com/" + "photo-1587595431973-160d0d94add1?" + "w=500&auto=format&" + "fit=crop&q=80"),
    Seed("12", "Dubai, UAE", "United Arab Emirates",
      "Modern metropolis " + "with stunning architecture " + "and luxury shopping. " + "Home to the Burj Khalifa " + "and Palm Jumeirah.",
      25.2048, 55.2708, 4.5,
      "https://images.unsplash.com/" + "photo-1512453979798-5ea266f8880c?" + "w=500&auto=format&" + "fit=crop&q=80")
  ]

  /** The seed ids are "1" to "12", each used once. */
  lemma SeedIdsDistinct()
    ensures |MockLocations| == 12
    ensures forall i, j :: 0 <= i < j < |MockLocations| ==> MockLocations[i].id != MockLocations[j].id
  {
    SeedIdsFirst();
    SeedIdsLast();
  }

  lemma SeedIdsFirst()
    ensures |MockLocations| == 12
    ensures MockLocations[0].id == "1" && MockLocations[1].id == "2" && MockLocations[2].id == "3"
    ensures MockLocations[3].id == "4" && MockLocations[4].id == "5" && MockLocations[5].id == "6"
  {
  }

  lemma SeedIdsLast()
    ensures MockLocations[6].id == "7" && MockLocations[7].id == "8" && MockLocations[8].id == "9"
    ensures MockLocations[9].id == "10" && MockLocations[10].id == "11" && MockLocations[11].id == "12"
  {
  }

  /** The display name and country of the first six seed entries. */
  lemma SeedNamesFirst()
    ensures |MockLocations| == 12
    ensures MockLocations[0].name == "Paris, France" && MockLocations[0].country == "France"
    ensures MockLocations[1].name == "Tokyo, Japan" && MockLocations[1].country == "Japan"
    ensures MockLocations[2].name == "New York, USA" && MockLocations[2].country == "United States"
    ensures MockLocations[3].name == "Santorini, Greece" && MockLocations[3].country == "Greece"
    ensures MockLocations[4].name == "Bali, Indonesia" && MockLocations[4].country == "Indonesia"
    ensures MockLocations[5].name == "Swiss Alps, Switzerland" && MockLocations[5].country == "Switzerland"
  {
    SeedNamesOneToThree();
    SeedNamesFourToSix();
  }

  lemma SeedNamesOneToThree()
    ensures |MockLocations| == 12
    ensures MockLocations[0].name == "Paris, France" && MockLocations[0].country == "France"
    ensures MockLocations[1].name == "Tokyo, Japan" && MockLocations[1].country == "Japan"
    ensures MockLocations[2].name == "New York, USA" && MockLocations[2].country == "United States"
  {
  }

  lemma SeedNamesFourToSix()
    ensures MockLocations[3].name == "Santorini, Greece" && MockLocations[3].country == "Greece"
    ensures MockLocations[4].name == "Bali, Indonesia" && MockLocations[4].country == "Indonesia"
    ensures MockLocations[5].name == "Swiss Alps, Switzerland" && MockLocations[5].country == "Switzerland"
  {
  }

  /** The display name and country of the last six seed entries. */
  lemma SeedNamesLast()
    ensures MockLocations[6].name == "Rome, Italy" && MockLocations[6].country == "Italy"
    ensures MockLocations[7].name == "Kyoto, Japan" && MockLocations[7].country == "Japan"
    ensures MockLocations[8].name == "Barcelona, Spain" && MockLocations[8].country == "Spain"
    ensures MockLocations[9].name == "Sydney, Australia" && MockLocations[9].country == "Australia"
    ensures MockLocations[10].name == "Machu Picchu, Peru" && MockLocations[10].country == "Peru"
    ensures MockLocations[11].name == "Dubai, UAE" && MockLocations[11].country == "United Arab Emirates"
  {
  }
}
