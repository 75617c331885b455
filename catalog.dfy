/** The three read-only catalogs the screens search and display, and the literal
    records `GET /api/destinations`, `GET /api/hotels` and `GET /api/activities`
    answer with (server/routes.ts). The client imports its own copies from a data
    module that is not part of this model, so every screen takes the catalogs as
    parameters; the server's literals serve as sample fixtures. */
module Catalog {
  import opened Common

  datatype Destination = Destination(
    id: string, name: string, country: string, imageUrl: string,
    dateRange: string, duration: nat)

  datatype Hotel = Hotel(
    id: string, name: string, location: string, imageUrl: string,
    rating: real, pricePerNight: nat, nights: nat, amenities: seq<string>)

  /** An activity as the search and the itinerary use it; the prose that only
      the details screen displays is not part of this model. */
  datatype Activity = Activity(
    id: string, name: string, location: string, imageUrl: string, duration: string)

  /** The three catalogs together, in the order the search screen scans them. */
  datatype Catalogs = Catalogs(
    destinations: seq<Destination>, hotels: seq<Hotel>, activities: seq<Activity>)

  function DestinationIds(ds: seq<Destination>): seq<string>
  {
    Map((d: Destination) => d.id, ds)
  }

  function HotelIds(hs: seq<Hotel>): seq<string>
  {
    Map((h: Hotel) => h.id, hs)
  }

  function ActivityIds(acts: seq<Activity>): seq<string>
  {
    Map((a: Activity) => a.id, acts)
  }

  const SampleDestinations: seq<Destination> := [
    Destination("tokyo", "Tokyo", "Japan",
      "https://images.unsplash.com/photo-1536098561742-ca998e48cbcc?ixlib=rb-1.2.1&auto=format&fit=crop&w=800&q=80",
      "October 10-16, 2025", 6),
    Destination("kyoto", "Kyoto", "Japan",
      "https://images.unsplash.com/photo-1493976040374-85c8e12f0c0e?ixlib=rb-1.2.1&auto=format&fit=crop&w=800&q=80",
      "November 5-12, 2025", 7),
    Destination("paris", "Paris", "France",
      "https://images.unsplash.com/photo-1502602898657-3e91760cbb34?ixlib=rb-1.2.1&auto=format&fit=crop&w=800&q=80",
      "December 15-22, 2025", 7),
    Destination("rome", "Rome", "Italy",
      "https://images.unsplash.com/photo-1525874684015-58379d421a52?ixlib=rb-1.2.1&auto=format&fit=crop&w=800&q=80",
      "January 10-17, 2026", 7),
    Destination("bali", "Bali", "Indonesia",
      "https://images.unsplash.com/photo-1539367628448-4bc5c9d171c8?ixlib=rb-1.2.1&auto=format&fit=crop&w=800&q=80",
      "February 5-15, 2026", 10),
    Destination("new-york", "New York", "USA",
      "https://images.unsplash.com/photo-1496442226666-8d4d0e62e6e9?ixlib=rb-1.2.1&auto=format&fit=crop&w=800&q=80",
      "March 20-27, 2026", 7)
  ]

  const SampleHotels: seq<Hotel> := [
    Hotel("shinjuku-prince", "Shinjuku Prince Hotel", "Shinjuku",
      "https://images.unsplash.com/photo-1566073771259-6a8506099945?ixlib=rb-1.2.1&auto=format&fit=crop&w=400&q=80",
      4.3, 120, 2, ["WiFi", "Pool", "Restaurant", "Gym"]),
    Hotel("hilton-tokyo", "Hilton Tokyo Hotel", "Shinjuku",
      "https://images.unsplash.com/photo-1551882547-ff40c63fe5fa?ixlib=rb-1.2.1&auto=format&fit=crop&w=400&q=80",
      4.7, 180, 4, ["WiFi", "Pool", "Restaurant", "Gym", "Spa"]),
    Hotel("imperial-hotel", "Imperial Hotel Tokyo", "Hibiya",
      "https://images.unsplash.com/photo-1551882547-ff40c63fe5fa?ixlib=rb-1.2.1&auto=format&fit=crop&w=400&q=80",
      4.9, 220, 3, ["WiFi", "Pool", "Restaurant", "Gym", "Spa", "Bar"]),
    Hotel("park-hyatt", "Park Hyatt Tokyo", "Shinjuku",
      "https://images.unsplash.com/photo-1566073771259-6a8506099945?ixlib=rb-1.2.1&auto=format&fit=crop&w=400&q=80",
      4.8, 245, 2, ["WiFi", "Pool", "Restaurant", "Gym", "Spa", "Bar"]),
    Hotel("aman-tokyo", "Aman Tokyo", "Otemachi",
      "https://images.unsplash.com/photo-1551882547-ff40c63fe5fa?ixlib=rb-1.2.1&auto=format&fit=crop&w=400&q=80",
      5.0, 380, 1, ["WiFi", "Pool", "Restaurant", "Gym", "Spa", "Bar", "Lounge"]),
    Hotel("cerulean-tower", "Cerulean Tower Tokyu Hotel", "Shibuya",
      "https://images.unsplash.com/photo-1566073771259-6a8506099945?ixlib=rb-1.2.1&auto=format&fit=crop&w=400&q=80",
      4.6, 170, 3, ["WiFi", "Restaurant", "Gym", "Bar"])
  ]

  const SampleActivities: seq<Activity> := [
    Activity("sensoji", "Sensō-ji Temple & Shopping Street", "Asakusa, Tokyo",
      "https://images.unsplash.com/photo-1545569341-9eb8b30979d9?ixlib=rb-1.2.1&auto=format&fit=crop&w=200&q=80",
      "3 hours"),
    Activity("tokyo-skytree", "Tokyo Sky Tree", "Sumida, Tokyo",
      "https://images.unsplash.com/photo-1540959733332-eab4deabeeaf?ixlib=rb-1.2.1&auto=format&fit=crop&w=200&q=80",
      "2 hours"),
    Activity("shibuya-crossing", "Shibuya Crossing", "Shibuya, Tokyo",
      "https://images.unsplash.com/photo-1503899036084-c55cdd92da26?ixlib=rb-1.2.1&auto=format&fit=crop&w=200&q=80",
      "1.5 hours")
  ]

  const SampleCatalogs: Catalogs := Catalogs(SampleDestinations, SampleHotels, SampleActivities)

  /** The ids of six destinations, in order. */
  lemma DestinationIdsOfSix(ds: seq<Destination>)
    requires |ds| == 6
    ensures DestinationIds(ds) == [ds[0].id, ds[1].id, ds[2].id, ds[3].id, ds[4].id, ds[5].id]
  {
  }

  /** The ids of six hotels, in order. */
  lemma HotelIdsOfSix(hs: seq<Hotel>)
    requires |hs| == 6
    ensures HotelIds(hs) == [hs[0].id, hs[1].id, hs[2].id, hs[3].id, hs[4].id, hs[5].id]
  {
  }

  /** The six sample destinations have pairwise distinct ids. */
  lemma SampleDestinationIdsDistinct()
    ensures |SampleDestinations| == 6 && Distinct(DestinationIds(SampleDestinations))
  {
    DestinationIdsOfSix(SampleDestinations);
    SixSampleDestinationIds();
  }

  lemma SixSampleDestinationIds()
    ensures |SampleDestinations| == 6
    ensures var ds := SampleDestinations;
            [ds[0].id, ds[1].id, ds[2].id, ds[3].id, ds[4].id, ds[5].id]
            == ["tokyo", "kyoto", "paris", "rome", "bali", "new-york"]
    ensures Distinct(["tokyo", "kyoto", "paris", "rome", "bali", "new-york"])
  {
  }

  /** The six sample hotels have pairwise distinct ids. */
  lemma SampleHotelIdsDistinct()
    ensures |SampleHotels| == 6 && Distinct(HotelIds(SampleHotels))
  {
    HotelIdsOfSix(SampleHotels);
    SixSampleHotelIds();
  }

  lemma SixSampleHotelIds()
    ensures |SampleHotels| == 6
    ensures var hs := SampleHotels;
            [hs[0].id, hs[1].id, hs[2].id, hs[3].id, hs[4].id, hs[5].id]
            == ["shinjuku-prince", "hilton-tokyo", "imperial-hotel", "park-hyatt", "aman-tokyo", "cerulean-tower"]
    ensures Distinct(["shinjuku-prince", "hilton-tokyo", "imperial-hotel", "park-hyatt", "aman-tokyo", "cerulean-tower"])
  {
  }

  /** The three sample activities have pairwise distinct ids. */
  lemma SampleActivityIdsDistinct()
    ensures |SampleActivities| == 3 && Distinct(ActivityIds(SampleActivities))
  {
    var acts := SampleActivities;
    var ids := ActivityIds(acts);
    assert ids == [acts[0].id, acts[1].id, acts[2].id];
    assert Distinct(["sensoji", "tokyo-skytree", "shibuya-crossing"]);
  }
}
