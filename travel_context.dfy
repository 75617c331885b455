/** The shared travel context (client/src/contexts/TravelContext.tsx): the
    traveller's three onboarding answers and which top-level view is active. */
module TravelContext {
  import opened Common

  datatype TravelInfo = TravelInfo(destination: string, duration: string, travelingWith: string)

  /** `Partial<TravelInfo>`: each field either supplied or left out. */
  datatype PartialInfo = PartialInfo(
    destination: Option<string>, duration: Option<string>, travelingWith: Option<string>)

  /** The three views; a value of this type can hold no other. */
  datatype ActiveView = Onboarding | Dashboard | Details

  const DefaultTravelInfo := TravelInfo("", "", "")

  const NoFields := PartialInfo(None, None, None)

  function Pick(supplied: Option<string>, previous: string): string
  {
    if supplied.Some? then supplied.value else previous
  }

  /** `{ ...prev, ...info }`: the supplied fields replace the previous ones and the
      others are kept. */
  function Merge(prev: TravelInfo, info: PartialInfo): (r: TravelInfo)
    ensures info.destination.Some? ==> r.destination == info.destination.value
    ensures info.destination.None? ==> r.destination == prev.destination
    ensures info.duration.Some? ==> r.duration == info.duration.value
    ensures info.duration.None? ==> r.duration == prev.duration
    ensures info.travelingWith.Some? ==> r.travelingWith == info.travelingWith.value
    ensures info.travelingWith.None? ==> r.travelingWith == prev.travelingWith
  {
    TravelInfo(Pick(info.destination, prev.destination), Pick(info.duration, prev.duration),
               Pick(info.travelingWith, prev.travelingWith))
  }

  /** Merging nothing changes nothing. */
  lemma MergeNothing(prev: TravelInfo)
    ensures Merge(prev, NoFields) == prev
  {
  }

  /** Merging the same partial twice is merging it once. */
  lemma MergeIdempotent(prev: TravelInfo, info: PartialInfo)
    ensures Merge(Merge(prev, info), info) == Merge(prev, info)
  {
  }

  /** The later of two merges wins on every field it supplies. */
  lemma MergeTwice(prev: TravelInfo, first: PartialInfo, second: PartialInfo)
    ensures Merge(Merge(prev, first), second)
            == Merge(prev, PartialInfo(
                 if second.destination.Some? then second.destination else first.destination,
                 if second.duration.Some? then second.duration else first.duration,
                 if second.travelingWith.Some? then second.travelingWith else first.travelingWith))
  {
  }

  /** A partial that supplies every field determines the result alone. */
  lemma MergeComplete(prev: TravelInfo, d: string, du: string, t: string)
    ensures Merge(prev, PartialInfo(Some(d), Some(du), Some(t))) == TravelInfo(d, du, t)
  {
  }

  /** The provider's state. */
  class TravelState {
    var travelInfo: TravelInfo
    var activeView: ActiveView

    constructor ()
      ensures travelInfo == DefaultTravelInfo && activeView == Onboarding
    {
      travelInfo := DefaultTravelInfo;
      activeView := Onboarding;
    }

    /** `updateTravelInfo`. */
    method UpdateTravelInfo(info: PartialInfo)
      modifies this
      ensures travelInfo == Merge(old(travelInfo), info)
      ensures activeView == old(activeView)
    {
      travelInfo := Merge(travelInfo, info);
    }

    /** `setActiveView`. */
    method SetActiveView(view: ActiveView)
      modifies this
      ensures activeView == view && travelInfo == old(travelInfo)
    {
      activeView := view;
    }
  }
}
