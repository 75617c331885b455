/** The explore screen (client/src/pages/ExploreScreen.tsx): the liked
    destinations, the active tab, and the three fixed subsets of the
    destination catalog it offers. */
module Explore {
  import opened Common
  import opened Catalog

  /** `toggleLike`'s new set: the id flips membership and no other id changes. */
  function ToggledLike(liked: set<string>, destId: string): (r: set<string>)
    ensures destId in r <==> destId !in liked
    ensures forall x :: x != destId ==> (x in r <==> x in liked)
  {
    if destId in liked then liked - {destId} else liked + {destId}
  }

  /** Toggling the same id twice restores the set. */
  lemma ToggleLikeTwice(liked: set<string>, destId: string)
    ensures ToggledLike(ToggledLike(liked, destId), destId) == liked
  {
  }

  /** `destinations.slice(0, 2)`. */
  function Popular(ds: seq<Destination>): (r: seq<Destination>)
    ensures |r| == Min(2, |ds|) && r <= ds
  {
    ds[..Min(2, |ds|)]
  }

  function NamedIn(names: seq<string>): Destination -> bool
  {
    (d: Destination) => d.name in names
  }

  /** The beach tab: the destinations named Bali, in catalog order. */
  function Beaches(ds: seq<Destination>): (r: seq<Destination>)
    ensures r == Filter(NamedIn(["Bali"]), ds) && Subsequence(r, ds)
    ensures forall d :: d in r <==> d in ds && d.name == "Bali"
  {
    FilterSubsequence(NamedIn(["Bali"]), ds);
    FilterMembers(NamedIn(["Bali"]), ds);
    Filter(NamedIn(["Bali"]), ds)
  }

  /** The city tab: the destinations named New York, Paris or Tokyo, in catalog
      order. */
  function Cities(ds: seq<Destination>): (r: seq<Destination>)
    ensures r == Filter(NamedIn(["New York", "Paris", "Tokyo"]), ds) && Subsequence(r, ds)
    ensures forall d :: d in r <==> d in ds && d.name in {"New York", "Paris", "Tokyo"}
  {
    FilterSubsequence(NamedIn(["New York", "Paris", "Tokyo"]), ds);
    FilterMembers(NamedIn(["New York", "Paris", "Tokyo"]), ds);
    Filter(NamedIn(["New York", "Paris", "Tokyo"]), ds)
  }

  function Keep(p: Destination -> bool, d: Destination): seq<Destination>
  {
    if p(d) then [d] else []
  }

  /** One step of `Filter` along a suffix. */
  lemma FilterCons(p: Destination -> bool, ds: seq<Destination>, k: nat)
    requires k < |ds|
    ensures Filter(p, ds[k..]) == Keep(p, ds[k]) + Filter(p, ds[k + 1..])
  {
    assert ds[k..][1..] == ds[k + 1..];
  }

  /** The names of the six sample destinations, in catalog order. */
  predicate SampleNames(ds: seq<Destination>)
  {
    |ds| == 6 && ds[0].name == "Tokyo" && ds[1].name == "Kyoto" && ds[2].name == "Paris"
    && ds[3].name == "Rome" && ds[4].name == "Bali" && ds[5].name == "New York"
  }

  lemma CitiesOfSample(ds: seq<Destination>)
    requires SampleNames(ds)
    ensures Filter(NamedIn(["New York", "Paris", "Tokyo"]), ds) == [ds[0], ds[2], ds[5]]
  {
    var p := NamedIn(["New York", "Paris", "Tokyo"]);
    CityNames(ds);
    FilterCons(p, ds, 5);
    assert ds[6..] == [];
    assert Filter(p, ds[5..]) == [ds[5]];
    FilterCons(p, ds, 4);
    FilterCons(p, ds, 3);
    assert Filter(p, ds[3..]) == [ds[5]];
    FilterCons(p, ds, 2);
    FilterCons(p, ds, 1);
    assert Filter(p, ds[1..]) == [ds[2], ds[5]];
    FilterCons(p, ds, 0);
    assert ds[0..] == ds;
  }

  /** Which sample names are city names. */
  lemma CityNames(ds: seq<Destination>)
    requires SampleNames(ds)
    ensures var p := NamedIn(["New York", "Paris", "Tokyo"]);
            p(ds[0]) && !p(ds[1]) && p(ds[2]) && !p(ds[3]) && !p(ds[4]) && p(ds[5])
  {
    assert ds[1].name[0] == 'K';
    assert |ds[3].name| == 4 && |ds[4].name| == 4;
  }

  lemma BeachesOfSample(ds: seq<Destination>)
    requires SampleNames(ds)
    ensures Filter(NamedIn(["Bali"]), ds) == [ds[4]]
  {
    var p := NamedIn(["Bali"]);
    FilterCons(p, ds, 5);
    assert ds[6..] == [];
    assert Filter(p, ds[5..]) == [];
    FilterCons(p, ds, 4);
    assert Filter(p, ds[4..]) == [ds[4]];
    FilterCons(p, ds, 3);
    assert Filter(p, ds[3..]) == [ds[4]];
    FilterCons(p, ds, 2);
    assert Filter(p, ds[2..]) == [ds[4]];
    FilterCons(p, ds, 1);
    assert Filter(p, ds[1..]) == [ds[4]];
    FilterCons(p, ds, 0);
    assert ds[0..] == ds;
  }

  lemma SampleNamesHold()
    ensures SampleNames(SampleDestinations)
  {
  }

  /** On any catalog named like the sample one: the first two are popular, the
      fifth is the beach, and the first, third and sixth are the cities. */
  lemma TabsOfSampleNames(ds: seq<Destination>)
    requires SampleNames(ds)
    ensures Popular(ds) == [ds[0], ds[1]]
    ensures Beaches(ds) == [ds[4]]
    ensures Cities(ds) == [ds[0], ds[2], ds[5]]
  {
    CitiesOfSample(ds);
    BeachesOfSample(ds);
  }

  /** On the sample catalog: Tokyo and Kyoto are popular, Bali is the beach, and
      the cities are Tokyo, Paris and New York in that order. */
  lemma SampleTabs()
    ensures Popular(SampleDestinations) == [SampleDestinations[0], SampleDestinations[1]]
    ensures Beaches(SampleDestinations) == [SampleDestinations[4]]
    ensures Cities(SampleDestinations) == [SampleDestinations[0], SampleDestinations[2], SampleDestinations[5]]
  {
    SampleNamesHold();
    TabsOfSampleNames(SampleDestinations);
  }

  /** The screen's state. */
  class ExploreScreen {
    var activeTab: string
    var likedDestinations: set<string>

    constructor ()
      ensures activeTab == "popular" && likedDestinations == {}
    {
      activeTab := "popular";
      likedDestinations := {};
    }

    method SetActiveTab(tab: string)
      modifies this
      ensures activeTab == tab && likedDestinations == old(likedDestinations)
    {
      activeTab := tab;
    }

    /** `toggleLike`: copy the set, then delete the id if present or add it. */
    method ToggleLike(destId: string)
      modifies this
      ensures likedDestinations == ToggledLike(old(likedDestinations), destId)
      ensures activeTab == old(activeTab)
    {
      var newSet := likedDestinations;
      if destId in newSet {
        newSet := newSet - {destId};
      } else {
        newSet := newSet + {destId};
      }
      likedDestinations := newSet;
    }
  }
}
