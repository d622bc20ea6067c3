/**
 * What the two location-list screens (app/view_location.jsx and
 * app/add_location.jsx) share: the location record the backend returns,
 * the status colour rule, the reply of the locations-by-user request and
 * what the list area shows.
 */
module LocationRecords {
  import opened Wrappers

  /** One registered location as `/api/location/getLocationByUserId` returns it. */
  datatype Location = Location(id: int, locationAddress: string, latitude: string, longitude: string, status: string)

  datatype Color = Green | Orange | Red

  /**
   * `getStatusStyle`: the colour of a status label. The three known
   * statuses have their own colour; any other status gets no style.
   */
  function StatusColor(status: string): (c: Option<Color>)
    ensures c == Some(Green) <==> status == "approved"
    ensures c == Some(Orange) <==> status == "pending"
    ensures c == Some(Red) <==> status == "rejected"
    ensures c == None <==> status != "approved" && status != "pending" && status != "rejected"
  {
    match status
    case "approved" => Some(Green)
    case "pending" => Some(Orange)
    case "rejected" => Some(Red)
    case _ => None
  }

  /**
   * The outcome of the locations request: a parsed body with the HTTP `ok`
   * flag, its `data` list and its `message` (a missing field reads as the
   * empty list or the empty string), or an exception from `fetch` or
   * `response.json()`.
   */
  datatype LocationsReply = Replied(ok: bool, data: seq<Location>, message: string) | Threw

  /** What a list screen does outward: an alert, or the locations request for a user id. */
  datatype Effect = Alert(title: string, message: string) | FetchByUser(userID: int)

  /** What the list area of a screen shows. */
  datatype Panel = Spinner | LocationList(items: seq<Location>) | NoLocationsText
}
