/** The app's router (client/src/App.tsx): the location effect that keeps the
    context's active view in step with the path, and the details overlay
    opened from the dashboard and closed with Back. */
module AppRouter {
  import opened Common
  import opened Catalog
  import opened TravelContext

  class Router {
    const ctx: TravelState
    var detailsItem: Option<Activity>

    constructor (ctx: TravelState)
      ensures this.ctx == ctx && detailsItem == None
    {
      this.ctx := ctx;
      detailsItem := None;
    }

    /** The location effect: `/` shows onboarding, `/dashboard` the dashboard,
        and any other path leaves the view as it is. */
    method OnLocation(location: string)
      modifies ctx
      ensures location == "/" ==> ctx.activeView == Onboarding
      ensures location == "/dashboard" ==> ctx.activeView == Dashboard
      ensures location != "/" && location != "/dashboard" ==> ctx.activeView == old(ctx.activeView)
      ensures ctx.travelInfo == old(ctx.travelInfo)
    {
      if location == "/" {
        ctx.SetActiveView(Onboarding);
      } else if location == "/dashboard" {
        ctx.SetActiveView(Dashboard);
      }
    }

    /** The dashboard's `onActivityClick`: the item is kept and the details view
        opens. */
    method OnActivityClick(item: Activity)
      modifies this, ctx
      ensures detailsItem == Some(item) && ctx.activeView == Details
      ensures ctx.travelInfo == old(ctx.travelInfo)
    {
      detailsItem := Some(item);
      ctx.SetActiveView(Details);
    }

    /** The details screen's `onBack`: the dashboard view returns, and the item
        stays stored. */
    method OnBack()
      modifies ctx
      ensures ctx.activeView == Dashboard && detailsItem == old(detailsItem)
      ensures ctx.travelInfo == old(ctx.travelInfo)
    {
      ctx.SetActiveView(Dashboard);
    }

    /** The details overlay is drawn exactly when the view is details and an
        item is stored. */
    predicate ShowsDetails()
      reads this, ctx
    {
      ctx.activeView == Details && detailsItem.Some?
    }
  }

  /** Opening an item and going back hides the overlay but keeps the item; any
      later switch of the view to details shows that item again. */
  method OpenThenBack(r: Router, item: Activity)
    modifies r, r.ctx
    ensures !r.ShowsDetails() && r.detailsItem == Some(item) && r.ctx.activeView == Dashboard
  {
    r.OnActivityClick(item);
    r.OnBack();
  }

  /** Any switch of the view to details with an item stored shows the overlay. */
  method ReopenDetails(r: Router)
    requires r.detailsItem.Some?
    modifies r.ctx
    ensures r.ShowsDetails() && r.detailsItem == old(r.detailsItem)
  {
    r.ctx.SetActiveView(Details);
  }
}
