/** The onboarding screen (client/src/pages/OnboardingScreen.tsx): three
    answers typed or picked by the traveller, and the Continue button that
    hands them to the travel context and moves on to the dashboard. Navigation
    is recorded as the target path. */
module Onboarding {
  import opened Common
  import opened TravelContext

  datatype TravelOption = TravelOption(id: string, caption: string)

  const TravelOptions: seq<TravelOption> := [
    TravelOption("solo", "Solo"), TravelOption("couple", "Couple"),
    TravelOption("family", "Family"), TravelOption("friends", "Friends")
  ]

  const DashboardPath := "/dashboard"

  /** The four travel options have the ids solo, couple, family and friends,
      pairwise distinct. */
  lemma TravelOptionIds()
    ensures |TravelOptions| == 4 && Distinct(Map((o: TravelOption) => o.id, TravelOptions))
    ensures forall i :: 0 <= i < |TravelOptions| ==>
              TravelOptions[i].id in {"solo", "couple", "family", "friends"}
  {
    assert Map((o: TravelOption) => o.id, TravelOptions) == ["solo", "couple", "family", "friends"];
  }

  /** The screen's three answers. */
  class OnboardingScreen {
    var destination: string
    var duration: string
    var travelingWith: string

    constructor ()
      ensures destination == "" && duration == "" && travelingWith == ""
    {
      destination := "";
      duration := "";
      travelingWith := "";
    }

    method SetDestination(d: string)
      modifies this
      ensures destination == d && duration == old(duration) && travelingWith == old(travelingWith)
    {
      destination := d;
    }

    method SetDuration(d: string)
      modifies this
      ensures duration == d && destination == old(destination) && travelingWith == old(travelingWith)
    {
      duration := d;
    }

    /** A travel-option card: its id becomes the answer. */
    method ChooseTravelOption(option: TravelOption)
      requires option in TravelOptions
      modifies this
      ensures travelingWith == option.id && travelingWith in {"solo", "couple", "family", "friends"}
      ensures destination == old(destination) && duration == old(duration)
    {
      TravelOptionIds();
      travelingWith := option.id;
    }

    /** `handleContinue`: with all three answers given, they are written to the
        context and the app navigates to the dashboard; otherwise neither
        happens. */
    method Continue(ctx: TravelState) returns (navigateTo: Option<string>)
      modifies ctx
      ensures destination != "" && duration != "" && travelingWith != "" ==>
                ctx.travelInfo == TravelInfo(destination, duration, travelingWith)
                && navigateTo == Some(DashboardPath)
      ensures destination == "" || duration == "" || travelingWith == "" ==>
                ctx.travelInfo == old(ctx.travelInfo) && navigateTo == None
      ensures ctx.activeView == old(ctx.activeView)
    {
      navigateTo := None;
      if destination != "" && duration != "" && travelingWith != "" {
        ctx.UpdateTravelInfo(PartialInfo(Some(destination), Some(duration), Some(travelingWith)));
        navigateTo := Some(DashboardPath);
      }
    }
  }
}
