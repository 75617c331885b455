/** The safety card (client/src/components/ui/safety-tips.tsx): the emergency
    numbers of the destination country, looked up in a small table with a
    `default` row, five fixed travel tips, and an `expanded` flag that the
    header of the compact card flips. */
module Safety {
  import opened Common

  datatype TipType = EmergencyTip | HealthTip | GeneralTip | ScamsTip

  datatype SafetyTip = SafetyTip(id: string, title: string, description: string, tipType: TipType)

  datatype CountryInfo = CountryInfo(
    emergencyNumber: string, policeNumber: string, ambulanceNumber: string, embassyInfo: string)

  const JapanInfo := CountryInfo("110", "110", "119", "U.S. Embassy: +81-3-3224-5000")
  const FranceInfo := CountryInfo("112", "17", "15", "U.S. Embassy: +33-1-4312-2222")
  const DefaultInfo := CountryInfo("112", "112", "112", "Contact your local embassy")

  /** `countryInfo`, keyed by country name, with its `default` row. */
  const CountryTable: map<string, CountryInfo> :=
    map["Japan" := JapanInfo, "France" := FranceInfo, "default" := DefaultInfo]

  /** `countryInfo[destination] || countryInfo.default` over the table's own
      keys: every row is an object, so the fallback applies exactly when the
      destination is not one of them. */
  function InfoFor(destination: string): (r: CountryInfo)
    ensures r == JapanInfo <==> destination == "Japan"
    ensures r == FranceInfo <==> destination == "France"
    ensures r == DefaultInfo <==> destination != "Japan" && destination != "France"
  {
    if destination in CountryTable then CountryTable[destination] else CountryTable["default"]
  }

  /** The French police and ambulance numbers differ from the pan-European 112,
      while the default row sends every call to 112. */
  lemma DefaultRowUsesOneNumber(destination: string)
    requires destination != "Japan" && destination != "France"
    ensures InfoFor(destination).policeNumber == InfoFor(destination).emergencyNumber == "112"
    ensures InfoFor(destination).ambulanceNumber == "112"
    ensures InfoFor("France").policeNumber != InfoFor(destination).policeNumber
  {
  }

  const SafetyTips: seq<SafetyTip> := [
    SafetyTip("tip1", "Keep copies of important documents",
      "Make digital and physical copies of your passport, ID, insurance, and travel documents. Store copies separately from originals.",
      GeneralTip),
    SafetyTip("tip2", "Be aware of local scams",
      "Research common scams at your destination. Be wary of strangers offering unsolicited help or deals that seem too good to be true.",
      ScamsTip),
    SafetyTip("tip3", "Register with your embassy",
      "For longer trips, register your travel plans with your country's embassy or consulate. This helps them contact you in emergencies.",
      GeneralTip),
    SafetyTip("tip4", "Get travel insurance",
      "Ensure you have adequate travel insurance covering medical emergencies, trip cancellations, and lost belongings.",
      HealthTip),
    SafetyTip("tip5", "Learn basic local phrases",
      "Know how to say 'help', 'police', 'hospital', and other emergency phrases in the local language.",
      EmergencyTip)
  ]

  function TipIds(tips: seq<SafetyTip>): seq<string>
  {
    Map((t: SafetyTip) => t.id, tips)
  }

  /** The five tips carry the distinct accordion keys `tip1` … `tip5`. */
  lemma TipIdsDistinct()
    ensures TipIds(SafetyTips) == ["tip1", "tip2", "tip3", "tip4", "tip5"]
    ensures Distinct(TipIds(SafetyTips))
  {
    TipIdsOfFive(SafetyTips);
    FiveSampleTipIds();
  }

  lemma TipIdsOfFive(tips: seq<SafetyTip>)
    requires |tips| == 5
    ensures TipIds(tips) == [tips[0].id, tips[1].id, tips[2].id, tips[3].id, tips[4].id]
  {
  }

  lemma FiveSampleTipIds()
    ensures |SafetyTips| == 5
    ensures var t := SafetyTips;
            [t[0].id, t[1].id, t[2].id, t[3].id, t[4].id] == ["tip1", "tip2", "tip3", "tip4", "tip5"]
    ensures Distinct(["tip1", "tip2", "tip3", "tip4", "tip5"])
  {
  }

  /** What the expanded compact card shows: two numbers and the title of the
      first tip. */
  datatype CompactDetails = CompactDetails(emergency: string, ambulance: string, firstTip: string)

  /** What the full card shows: the heading, the four contact lines and every
      tip title in order. */
  datatype FullDetails = FullDetails(heading: string, contacts: seq<string>, tipTitles: seq<string>)

  datatype Panel = CompactPanel(details: Option<CompactDetails>) | FullPanel(full: FullDetails)

  /** The compact card: the emergency and ambulance numbers and the first tip
      title when expanded, only the header otherwise. */
  function CompactCard(destination: string, expanded: bool): (r: Option<CompactDetails>)
    ensures r.Some? <==> expanded
    ensures expanded ==> r.value.emergency == InfoFor(destination).emergencyNumber
                         && r.value.ambulance == InfoFor(destination).ambulanceNumber
                         && r.value.firstTip == "Keep copies of important documents"
  {
    if expanded then
      var info := InfoFor(destination);
      Some(CompactDetails(info.emergencyNumber, info.ambulanceNumber, SafetyTips[0].title))
    else
      None
  }

  /** The full card lists the four contact fields of the destination's row and
      the titles of all five tips, in order. */
  function FullCard(destination: string): (r: FullDetails)
    ensures r.heading == "Safety Information for " + destination
    ensures r.contacts == [InfoFor(destination).emergencyNumber, InfoFor(destination).policeNumber,
                           InfoFor(destination).ambulanceNumber, InfoFor(destination).embassyInfo]
    ensures |r.tipTitles| == |SafetyTips| == 5
    ensures forall i :: 0 <= i < 5 ==> r.tipTitles[i] == SafetyTips[i].title
  {
    var info := InfoFor(destination);
    FullDetails("Safety Information for " + destination,
      [info.emergencyNumber, info.policeNumber, info.ambulanceNumber, info.embassyInfo],
      Map((t: SafetyTip) => t.title, SafetyTips))
  }

  /** One `SafetyTips` card, with its props' defaults applied. */
  class SafetyCard {
    const destination: string
    const compact: bool
    var expanded: bool

    /** `destination = "Japan"`, `compact = false`, and `expanded` starts as
        `!compact`. */
    constructor (destinationProp: Option<string>, compactProp: Option<bool>)
      ensures destination == (if destinationProp.Some? then destinationProp.value else "Japan")
      ensures compact == (compactProp.Some? && compactProp.value)
      ensures expanded == !compact
    {
      destination := if destinationProp.Some? then destinationProp.value else "Japan";
      compact := compactProp.Some? && compactProp.value;
      expanded := !(compactProp.Some? && compactProp.value);
    }

    /** The header click of the compact card. */
    method ToggleExpanded()
      modifies this
      ensures expanded == !old(expanded)
    {
      expanded := !expanded;
    }

    /** The card as drawn: the compact card follows `expanded`, the full card
        ignores it. */
    function View(): (r: Panel)
      reads this
      ensures r.CompactPanel? <==> compact
      ensures compact ==> r.details == CompactCard(destination, expanded)
      ensures !compact ==> r.full == FullCard(destination)
    {
      if compact then CompactPanel(CompactCard(destination, expanded)) else FullPanel(FullCard(destination))
    }
  }

  /** Two header clicks leave the compact card as it was. */
  method ToggleTwice(card: SafetyCard)
    modifies card
    ensures card.expanded == old(card.expanded)
    ensures card.View() == old(card.View())
  {
    card.ToggleExpanded();
    card.ToggleExpanded();
  }

  /** A card opened in compact form starts folded, and one click shows the
      destination's emergency and ambulance numbers. */
  method OpenCompactCard(destination: string) returns (shown: Option<CompactDetails>)
    ensures shown == Some(CompactDetails(InfoFor(destination).emergencyNumber,
                                         InfoFor(destination).ambulanceNumber,
                                         "Keep copies of important documents"))
  {
    var card := new SafetyCard(Some(destination), Some(true));
    assert card.View() == CompactPanel(None);
    card.ToggleExpanded();
    shown := card.View().details;
  }
}
