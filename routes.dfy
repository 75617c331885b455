/** The one write endpoint of the server, `POST /api/travel-preferences`
    (server/routes.ts): it validates three fields of the request body and echoes
    them back, without storing anything. A request body field is either absent
    (`None`) or a string; JavaScript's truthiness makes the empty string count as
    missing. */
module Routes {
  import opened Common

  /** The parsed JSON body: the three fields the handler reads, plus whatever else
      the client sent. */
  datatype PreferencesBody = PreferencesBody(
    destination: Option<string>,
    duration: Option<string>,
    travelingWith: Option<string>,
    otherFields: map<string, string>)

  datatype Preferences = Preferences(destination: string, duration: string, travelingWith: string)

  /** An HTTP status with the JSON body `{message}` or `{message, data}`. */
  datatype Response = Response(status: nat, message: string, data: Option<Preferences>)

  const MissingFieldsMessage := "Missing required fields"
  const SavedMessage := "Travel preferences saved successfully"

  /** `!!field` for a body field that is absent or a string. */
  predicate Present(field: Option<string>)
  {
    field.Some? && field.value != ""
  }

  /** The handler of `POST /api/travel-preferences`. */
  function SaveTravelPreferences(body: PreferencesBody): (r: Response)
    ensures r.status == 400 || r.status == 201
    ensures r.status == 400 <==>
            !Present(body.destination) || !Present(body.duration) || !Present(body.travelingWith)
    ensures r.status == 400 ==> r.message == MissingFieldsMessage && r.data == None
    ensures r.status == 201 ==>
            r.message == SavedMessage
            && r.data == Some(Preferences(body.destination.value, body.duration.value, body.travelingWith.value))
  {
    if !Present(body.destination) || !Present(body.duration) || !Present(body.travelingWith) then
      Response(400, MissingFieldsMessage, None)
    else
      Response(201, SavedMessage,
        Some(Preferences(body.destination.value, body.duration.value, body.travelingWith.value)))
  }

  /** Fields other than the three validated ones never reach the response: two
      bodies that agree on those three get the same answer. */
  lemma OtherFieldsIgnored(a: PreferencesBody, b: PreferencesBody)
    requires a.destination == b.destination && a.duration == b.duration
    requires a.travelingWith == b.travelingWith
    ensures SaveTravelPreferences(a) == SaveTravelPreferences(b)
  {
  }

  /** A complete request is accepted and echoed. */
  lemma CompleteRequestSaved()
    ensures SaveTravelPreferences(PreferencesBody(Some("Kyoto"), Some("short"), Some("solo"), map[]))
            == Response(201, SavedMessage, Some(Preferences("Kyoto", "short", "solo")))
  {
  }

  /** A request with only a destination is refused. */
  lemma IncompleteRequestRefused()
    ensures SaveTravelPreferences(PreferencesBody(Some("Kyoto"), None, None, map[])).status == 400
  {
  }
}
