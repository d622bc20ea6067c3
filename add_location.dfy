/**
 * app/add_location.jsx: the "Register New Location" screen, whose list
 * area shows the user's registered locations, loaded once on mount.
 */
module AddLocation {
  import opened Wrappers
  import opened Session
  import opened LocationRecords

  /**
   * The stored list after a reply: only an ok reply with a non-empty
   * `data.data` replaces it, so a reply never empties a shown list.
   */
  function AfterFetch(locations: seq<Location>, reply: LocationsReply): (r: seq<Location>)
    ensures reply.Replied? && reply.ok && reply.data != [] ==> r == reply.data
    ensures !(reply.Replied? && reply.ok && reply.data != []) ==> r == locations
    ensures locations != [] ==> r != []
  {
    if reply.Replied? && reply.ok && |reply.data| > 0 then reply.data else locations
  }

  /**
   * The alert a reply raises: an empty ok reply says so, an exception is
   * reported, and a non-ok reply is silent.
   */
  function FetchAlerts(reply: LocationsReply): (r: seq<Effect>)
    ensures reply.Replied? && reply.ok && reply.data == [] ==> r == [Alert("Info", "No locations found for this user.")]
    ensures reply.Replied? && reply.ok && reply.data != [] ==> r == []
    ensures reply.Replied? && !reply.ok ==> r == []
    ensures reply.Threw? ==> r == [Alert("Error", "An error occurred while fetching locations")]
  {
    match reply
    case Replied(ok, data, _) =>
      if ok && |data| == 0 then [Alert("Info", "No locations found for this user.")] else []
    case Threw => [Alert("Error", "An error occurred while fetching locations")]
  }

  /** The list area: the spinner while loading, else the list when it has entries, else the empty text. */
  function ShownPanel(loading: bool, locations: seq<Location>): (p: Panel)
    ensures p == Spinner <==> loading
    ensures p == LocationList(locations) <==> !loading && locations != []
    ensures p == NoLocationsText <==> !loading && locations == []
  {
    if loading then Spinner
    else if |locations| > 0 then LocationList(locations)
    else NoLocationsText
  }

  /** Once a list is shown, a later reply never turns it into the empty text. */
  lemma ShownListStays(locations: seq<Location>, reply: LocationsReply)
    requires ShownPanel(false, locations).LocationList?
    ensures ShownPanel(false, AfterFetch(locations, reply)).LocationList?
  {
  }

  class AddLocationScreen {
    var locations: seq<Location>
    var loading: bool
    var userData: Option<User>
    /** Every alert and request the screen has made, oldest first. */
    var effects: seq<Effect>

    constructor ()
      ensures locations == [] && !loading && userData == None && effects == []
    {
      locations, loading, userData, effects := [], false, None, [];
    }

    function Panel(): Panel
      reads this
    {
      ShownPanel(loading, locations)
    }

    /** `fetchLocations(userID)`, with the awaited reply as input; `finally` always ends the loading state. */
    method FetchLocations(userID: int, reply: LocationsReply)
      modifies this`locations, this`loading, this`effects
      ensures !loading
      ensures locations == AfterFetch(old(locations), reply)
      ensures effects == old(effects) + [FetchByUser(userID)] + FetchAlerts(reply)
    {
      loading := true;
      effects := effects + [FetchByUser(userID)];
      if reply.Replied? {
        if reply.ok {
          if |reply.data| > 0 {
            locations := reply.data;
          } else {
            effects := effects + [Alert("Info", "No locations found for this user.")];
          }
        }
      } else {
        effects := effects + [Alert("Error", "An error occurred while fetching locations")];
      }
      loading := false;
    }

    /** The mount effect: the locations are fetched only for a stored user that has an id. */
    method Mount(stored: StoredUser, reply: LocationsReply)
      modifies this`userData, this`locations, this`loading, this`effects
      ensures userData == if stored.Stored? then Some(stored.user) else old(userData)
      ensures stored.Stored? && HasId(stored.user) ==>
                && !loading
                && locations == AfterFetch(old(locations), reply)
                && effects == old(effects) + [FetchByUser(stored.user.id.value)] + FetchAlerts(reply)
      ensures !(stored.Stored? && HasId(stored.user)) ==>
                loading == old(loading) && locations == old(locations) && effects == old(effects)
    {
      if stored.Stored? {
        userData := Some(stored.user);
        if HasId(stored.user) {
          FetchLocations(stored.user.id.value, reply);
        }
      }
    }
  }
}
