/** The itinerary planner (client/src/components/ui/itinerary-planner.tsx): a
    fixed number of day plans, each a list of planned items that refer to
    catalog activities by id. Items are appended with an id derived from the
    day number and the day's current length, removed by id, and suggested from
    the activities the day does not plan yet. A day's calendar date is
    abstracted to its offset from the first day. */
module Itinerary {
  import opened Common
  import opened Text
  import opened Catalog

  datatype ItineraryItem = ItineraryItem(id: string, activityId: string, time: string)

  /** One day: `date` is its offset from the first day, standing for the date
      string the source derives from the clock. */
  datatype DayPlan = DayPlan(date: nat, activities: seq<ItineraryItem>)

  const SensojiItem := ItineraryItem("day1-item1", "sensoji", "09:00 AM")
  const SkytreeItem := ItineraryItem("day2-item1", "tokyo-skytree", "11:00 AM")
  const ShibuyaItem := ItineraryItem("day3-item1", "shibuya-crossing", "04:00 PM")

  /** The state the initialiser produces for `days` days: one plan per day, in
      date order, with the first three days pre-populated with one item each
      (the third only when there is a third day) and all other days empty. */
  predicate IsInitialItinerary(plan: seq<DayPlan>, days: nat)
  {
    |plan| == days && days >= 2
    && (forall i :: 0 <= i < days ==> plan[i].date == i)
    && plan[0].activities == [SensojiItem]
    && plan[1].activities == [SkytreeItem]
    && (days > 2 ==> plan[2].activities == [ShibuyaItem])
    && (forall i :: 3 <= i < days ==> plan[i].activities == [])
  }

  /** The lazy initialiser of the itinerary state: a loop pushes one empty day
      per offset, then the first days are overwritten. Day index 1 is written
      unconditionally, so the initialiser needs at least two days. */
  method InitialItinerary(days: nat) returns (plan: seq<DayPlan>)
    requires days >= 2
    ensures IsInitialItinerary(plan, days)
  {
    plan := [];
    var i := 0;
    while i < days
      invariant 0 <= i <= days
      invariant |plan| == i
      invariant forall j :: 0 <= j < i ==> plan[j] == DayPlan(j, [])
    {
      plan := plan + [DayPlan(i, [])];
      i := i + 1;
    }
    plan := plan[0 := DayPlan(plan[0].date, [SensojiItem])];
    plan := plan[1 := DayPlan(plan[1].date, [SkytreeItem])];
    if days > 2 {
      plan := plan[2 := DayPlan(plan[2].date, [ShibuyaItem])];
    }
  }

  /** `day${dayIndex + 1}-item${count + 1}`: the id an appended item gets. */
  function ItemId(dayIndex: nat, count: nat): string
  {
    "day" + NatToString(dayIndex + 1) + "-item" + NatToString(count + 1)
  }

  /** The pre-populated ids follow the same scheme as appended ones. */
  lemma InitialIdsFollowScheme()
    ensures SensojiItem.id == ItemId(0, 0)
    ensures SkytreeItem.id == ItemId(1, 0)
    ensures ShibuyaItem.id == ItemId(2, 0)
  {
  }

  /** In `day${a}-item${b}` with `a` made of digits, the first `-` follows `a`. */
  lemma FirstDash(a: string, b: string)
    requires IsDigits(a)
    ensures forall k :: 3 <= k < 3 + |a| ==> ("day" + a + "-item" + b)[k] != '-'
    ensures ("day" + a + "-item" + b)[3 + |a|] == '-'
  {
    var s := "day" + a + "-item" + b;
    forall k | 3 <= k < 3 + |a| ensures s[k] != '-' {
      assert s[k] == a[k - 3];
    }
  }

  /** The day number and the count can be read back from an id, because neither
      rendered number contains the `-` that separates them. */
  lemma SplitItemId(a1: string, b1: string, a2: string, b2: string)
    requires IsDigits(a1) && IsDigits(a2)
    requires "day" + a1 + "-item" + b1 == "day" + a2 + "-item" + b2
    ensures a1 == a2 && b1 == b2
  {
    var s1, s2 := "day" + a1 + "-item" + b1, "day" + a2 + "-item" + b2;
    FirstDash(a1, b1);
    FirstDash(a2, b2);
    assert |a1| == |a2|;
    assert a1 == s1[3..3 + |a1|];
    assert a2 == s2[3..3 + |a2|];
    assert b1 == s1[3 + |a1| + 5..];
    assert b2 == s2[3 + |a2| + 5..];
  }

  /** Different (day, count) pairs give different ids; in particular ids of
      different days never collide. */
  lemma ItemIdInjective(d1: nat, n1: nat, d2: nat, n2: nat)
    requires ItemId(d1, n1) == ItemId(d2, n2)
    ensures d1 == d2 && n1 == n2
  {
    NatToStringDigits(d1 + 1);
    NatToStringDigits(d2 + 1);
    SplitItemId(NatToString(d1 + 1), NatToString(n1 + 1), NatToString(d2 + 1), NatToString(n2 + 1));
    NatToStringInjective(d1 + 1, d2 + 1);
    NatToStringInjective(n1 + 1, n2 + 1);
  }

  /** The push of `handleAddActivity`: the day keeps its items and gets one more
      at the end, scheduled at noon, whose id counts the items before it. */
  function AppendActivity(day: DayPlan, dayIndex: nat, activityId: string): (r: DayPlan)
    ensures r.date == day.date
    ensures |r.activities| == |day.activities| + 1
    ensures r.activities[..|day.activities|] == day.activities
    ensures r.activities[|day.activities|]
            == ItineraryItem(ItemId(dayIndex, |day.activities|), activityId, "12:00 PM")
  {
    var item := ItineraryItem(ItemId(dayIndex, |day.activities|), activityId, "12:00 PM");
    assert (day.activities + [item])[..|day.activities|] == day.activities;
    DayPlan(day.date, day.activities + [item])
  }

  /** `item => item.id !== itemId`. */
  function IdIsNot(itemId: string): ItineraryItem -> bool
  {
    (item: ItineraryItem) => item.id != itemId
  }

  /** The filter of `handleRemoveActivity`: every item carrying `itemId` goes,
      the others stay in order; an absent id changes nothing. */
  function RemoveItem(day: DayPlan, itemId: string): (r: DayPlan)
    ensures r.date == day.date
    ensures r.activities == Filter(IdIsNot(itemId), day.activities)
    ensures Subsequence(r.activities, day.activities)
    ensures forall x :: x in r.activities <==> x in day.activities && x.id != itemId
    ensures (forall i :: 0 <= i < |day.activities| ==> day.activities[i].id != itemId) ==> r == day
  {
    FilterSubsequence(IdIsNot(itemId), day.activities);
    FilterMembers(IdIsNot(itemId), day.activities);
    assert (forall i :: 0 <= i < |day.activities| ==> day.activities[i].id != itemId)
           ==> Filter(IdIsNot(itemId), day.activities) == day.activities by {
      if forall i :: 0 <= i < |day.activities| ==> day.activities[i].id != itemId {
        FilterKeepsAll(IdIsNot(itemId), day.activities);
      }
    }
    DayPlan(day.date, Filter(IdIsNot(itemId), day.activities))
  }

  /** Removing a freshly appended item undoes the append, provided its derived id
      was not already carried by an older item of that day. */
  lemma RemoveUndoesAppend(day: DayPlan, dayIndex: nat, activityId: string)
    requires forall i :: 0 <= i < |day.activities| ==> day.activities[i].id != ItemId(dayIndex, |day.activities|)
    ensures RemoveItem(AppendActivity(day, dayIndex, activityId), ItemId(dayIndex, |day.activities|)) == day
  {
    var id := ItemId(dayIndex, |day.activities|);
    var item := ItineraryItem(id, activityId, "12:00 PM");
    var p := IdIsNot(id);
    assert AppendActivity(day, dayIndex, activityId).activities == day.activities + [item];
    FilterAppend(p, day.activities, [item]);
    FilterKeepsAll(p, day.activities);
    FilterSingleton(p, item);
  }

  /** Ids are not unique: after a removal the next append can reuse the id of a
      remaining item, and removing that id then drops both items. Starting from
      the first initial day, add Sky Tree (`day1-item2`), remove `day1-item1`,
      add Shibuya Crossing (again `day1-item2`), remove `day1-item2`: the day is
      empty. */
  lemma IdCollisionExample()
    ensures var d0 := DayPlan(0, [SensojiItem]);
            var d1 := AppendActivity(d0, 0, "tokyo-skytree");
            var d2 := RemoveItem(d1, "day1-item1");
            var d3 := AppendActivity(d2, 0, "shibuya-crossing");
            |d3.activities| == 2 && d3.activities[0].id == d3.activities[1].id == "day1-item2"
            && RemoveItem(d3, "day1-item2").activities == []
  {
    var d0 := DayPlan(0, [SensojiItem]);
    var sky := ItineraryItem("day1-item2", "tokyo-skytree", "12:00 PM");
    var shi := ItineraryItem("day1-item2", "shibuya-crossing", "12:00 PM");
    assert ItemId(0, 1) == "day1-item2";
    var d1 := AppendActivity(d0, 0, "tokyo-skytree");
    assert d1.activities == [SensojiItem, sky];
    var d2 := RemoveItem(d1, "day1-item1");
    assert d2.activities == [sky] by {
      assert [SensojiItem, sky] == [SensojiItem] + [sky];
      FilterAppend(IdIsNot("day1-item1"), [SensojiItem], [sky]);
      FilterSingleton(IdIsNot("day1-item1"), SensojiItem);
      FilterSingleton(IdIsNot("day1-item1"), sky);
    }
    var d3 := AppendActivity(d2, 0, "shibuya-crossing");
    assert d3.activities == [sky, shi];
    FilterDropsAll(IdIsNot("day1-item2"), d3.activities);
  }

  /** The activity ids a day already plans (the suggestion's `Set`). */
  function PlannedIds(day: DayPlan): seq<string>
  {
    Map((item: ItineraryItem) => item.activityId, day.activities)
  }

  /** `activity => !planned.has(activity.id)`. */
  function NotPlanned(day: DayPlan): Activity -> bool
  {
    (a: Activity) => a.id !in PlannedIds(day)
  }

  /** The catalog activities a day does not plan yet, in catalog order. */
  function Available(acts: seq<Activity>, day: DayPlan): (r: seq<Activity>)
    ensures r == Filter(NotPlanned(day), acts)
    ensures Subsequence(r, acts)
    ensures |r| <= |acts|
    ensures forall a :: a in r <==>
              a in acts && forall i :: 0 <= i < |day.activities| ==> day.activities[i].activityId != a.id
  {
    FilterSubsequence(NotPlanned(day), acts);
    FilterMembers(NotPlanned(day), acts);
    var r := Filter(NotPlanned(day), acts);
    assert forall a: Activity :: a.id in PlannedIds(day) <==>
             exists i :: 0 <= i < |day.activities| && day.activities[i].activityId == a.id;
    r
  }

  /** The suggestion grid: the first four available activities. */
  function SuggestionGrid(acts: seq<Activity>, day: DayPlan): (r: seq<Activity>)
    ensures |r| == Min(4, |Available(acts, day)|)
    ensures r <= Available(acts, day) && Subsequence(r, acts)
  {
    var avail := Available(acts, day);
    PrefixSubsequence(avail[..Min(4, |avail|)], avail, acts);
    avail[..Min(4, |avail|)]
  }

  /** Every card of the grid shows an activity the day does not plan yet. */
  lemma SuggestionGridUnplanned(acts: seq<Activity>, day: DayPlan, a: Activity)
    requires a in SuggestionGrid(acts, day)
    ensures a in acts
    ensures forall i :: 0 <= i < |day.activities| ==> day.activities[i].activityId != a.id
  {
    var g := SuggestionGrid(acts, day);
    var k :| 0 <= k < |g| && g[k] == a;
    assert Available(acts, day)[k] == a;
  }

  /** `getActivityDetails`: `activities.find(a => a.id === activityId)`. */
  function FindActivity(acts: seq<Activity>, activityId: string): (r: Option<Activity>)
    ensures r.None? <==> forall i :: 0 <= i < |acts| ==> acts[i].id != activityId
    ensures r.Some? ==> exists k :: 0 <= k < |acts| && acts[k] == r.value
                          && r.value.id == activityId
                          && forall j :: 0 <= j < k ==> acts[j].id != activityId
    decreases acts
  {
    if acts == [] then None
    else if acts[0].id == activityId then Some(acts[0])
    else
      var r := FindActivity(acts[1..], activityId);
      if r.Some? then
        var k :| 0 <= k < |acts[1..]| && acts[1..][k] == r.value
                 && r.value.id == activityId
                 && forall j :: 0 <= j < k ==> acts[1..][j].id != activityId;
        assert acts[k + 1] == r.value;
        r
      else
        assert forall i :: 1 <= i < |acts| ==> acts[i] == acts[1..][i - 1];
        r
  }

  /** `item => getActivityDetails(item.activityId)` is defined. */
  function Resolves(acts: seq<Activity>): ItineraryItem -> bool
  {
    (item: ItineraryItem) => FindActivity(acts, item.activityId).Some?
  }

  /** The rows drawn for a day: an item whose activity id is not in the catalog
      renders nothing, the others render in order. */
  function RenderedItems(acts: seq<Activity>, day: DayPlan): (r: seq<ItineraryItem>)
    ensures r == Filter(Resolves(acts), day.activities)
    ensures Subsequence(r, day.activities)
    ensures forall x :: x in r <==>
              x in day.activities && exists i :: 0 <= i < |acts| && acts[i].id == x.activityId
  {
    FilterSubsequence(Resolves(acts), day.activities);
    FilterMembers(Resolves(acts), day.activities);
    Filter(Resolves(acts), day.activities)
  }

  /** The three pre-populated items all refer to sample activities. */
  lemma InitialItemsRender()
    ensures RenderedItems(SampleActivities, DayPlan(0, [SensojiItem, SkytreeItem, ShibuyaItem]))
            == [SensojiItem, SkytreeItem, ShibuyaItem]
  {
    assert SampleActivities[0].id == "sensoji";
    assert SampleActivities[1].id == "tokyo-skytree";
    assert SampleActivities[2].id == "shibuya-crossing";
    FilterKeepsAll(Resolves(SampleActivities), [SensojiItem, SkytreeItem, ShibuyaItem]);
  }

  /** One trigger of the day tabs. */
  datatype TabDay = TabDay(value: string, caption: string)

  /** `tabDays`: one tab per day, valued by the day index and captioned from 1. */
  function TabDays(days: nat): (r: seq<TabDay>)
    ensures |r| == days
    ensures forall i :: 0 <= i < days ==> r[i].value == NatToString(i)
    ensures forall i :: 0 <= i < days ==> r[i].caption == "Day " + NatToString(i + 1)
  {
    seq(days, i requires 0 <= i < days => TabDay(NatToString(i), "Day " + NatToString(i + 1)))
  }

  /** The tab values, which serve as React keys, are pairwise distinct, and so
      are the labels. */
  lemma TabDaysDistinct(days: nat, i: nat, j: nat)
    requires i < j < days
    ensures TabDays(days)[i].value != TabDays(days)[j].value
    ensures TabDays(days)[i].caption != TabDays(days)[j].caption
  {
    var t := TabDays(days);
    if t[i].value == t[j].value {
      NatToStringInjective(i, j);
    }
    if t[i].caption == t[j].caption {
      assert NatToString(i + 1) == t[i].caption[4..];
      assert NatToString(j + 1) == t[j].caption[4..];
      NatToStringInjective(i + 1, j + 1);
    }
  }

  /** The planner's state: the day plans and the selected day tab. */
  class ItineraryPlanner {
    var itinerary: seq<DayPlan>
    var activeDay: string

    constructor (days: nat)
      requires days >= 2
      ensures IsInitialItinerary(itinerary, days)
      ensures activeDay == "0"
    {
      var plan := InitialItinerary(days);
      itinerary := plan;
      activeDay := "0";
    }

    /** The tab bar's `onValueChange`. */
    method SetActiveDay(day: string)
      modifies this
      ensures activeDay == day && itinerary == old(itinerary)
    {
      activeDay := day;
    }

    /** `handleAddActivity`: only day `dayIndex` changes, by one appended item. */
    method AddActivity(dayIndex: nat, activityId: string)
      requires dayIndex < |itinerary|
      modifies this
      ensures itinerary == old(itinerary)[dayIndex := AppendActivity(old(itinerary)[dayIndex], dayIndex, activityId)]
      ensures activeDay == old(activeDay)
    {
      var day := itinerary[dayIndex];
      var item := ItineraryItem(ItemId(dayIndex, |day.activities|), activityId, "12:00 PM");
      itinerary := itinerary[dayIndex := DayPlan(day.date, day.activities + [item])];
    }

    /** `handleRemoveActivity`: only day `dayIndex` changes, losing every item
        that carries `itemId`. */
    method RemoveActivity(dayIndex: nat, itemId: string)
      requires dayIndex < |itinerary|
      modifies this
      ensures itinerary == old(itinerary)[dayIndex := RemoveItem(old(itinerary)[dayIndex], itemId)]
      ensures activeDay == old(activeDay)
    {
      var day := itinerary[dayIndex];
      itinerary := itinerary[dayIndex := DayPlan(day.date, Filter(IdIsNot(itemId), day.activities))];
    }

    /** The suggest button: when some catalog activity is not planned for the
        day, one of them (picked at random in the source) is appended; otherwise
        nothing changes. */
    method SuggestActivity(dayIndex: nat, acts: seq<Activity>)
      requires dayIndex < |itinerary|
      modifies this
      ensures Available(acts, old(itinerary)[dayIndex]) == [] ==> itinerary == old(itinerary)
      ensures Available(acts, old(itinerary)[dayIndex]) != [] ==>
                exists a :: a in Available(acts, old(itinerary)[dayIndex])
                  && itinerary == old(itinerary)[dayIndex := AppendActivity(old(itinerary)[dayIndex], dayIndex, a.id)]
      ensures activeDay == old(activeDay)
    {
      var available := Available(acts, itinerary[dayIndex]);
      if available != [] {
        assert available[0] in available;
        var chosen :| chosen in available;
        AddActivity(dayIndex, chosen.id);
      }
    }
  }
}
