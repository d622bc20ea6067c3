/**
 * app/view_location.jsx: the list of the user's registered locations with a
 * search box. The visible list is the stored list filtered by a
 * case-insensitive substring match on the address; the list is loaded once
 * on mount for the stored user.
 */
module ViewLocation {
  import opened Wrappers
  import opened Strings
  import opened Session
  import opened LocationRecords

  /** The filter test: the lower-cased address includes the lower-cased query. */
  predicate Matches(l: Location, query: string)
  {
    Contains(ToLower(l.locationAddress), ToLower(query))
  }

  /** `locations.filter(...)`: the matching locations, in their original order. */
  function Filtered(locations: seq<Location>, query: string): (r: seq<Location>)
    ensures |r| <= |locations|
    ensures forall i :: 0 <= i < |r| ==> Matches(r[i], query)
  {
    if locations == [] then []
    else (if Matches(locations[0], query) then [locations[0]] else []) + Filtered(locations[1..], query)
  }

  /** `a` is `b` with some elements left out, the rest kept in order. */
  ghost predicate IsSubsequence(a: seq<Location>, b: seq<Location>)
    decreases |b|
  {
    a == [] || (b != [] && ((a[0] == b[0] && IsSubsequence(a[1..], b[1..])) || IsSubsequence(a, b[1..])))
  }

  /** The filter keeps every matching occurrence and no other. */
  lemma {:induction false} FilteredCounts(locations: seq<Location>, query: string, x: Location)
    ensures multiset(Filtered(locations, query))[x] == if Matches(x, query) then multiset(locations)[x] else 0
  {
    if locations != [] {
      FilteredCounts(locations[1..], query, x);
      assert locations == [locations[0]] + locations[1..];
    }
  }

  /** So a location is shown exactly when it is stored and matches. */
  lemma FilteredMembers(locations: seq<Location>, query: string, x: Location)
    ensures x in Filtered(locations, query) <==> x in locations && Matches(x, query)
  {
    FilteredCounts(locations, query, x);
  }

  /** The filter result keeps the original order. */
  lemma {:induction false} FilteredIsSubsequence(locations: seq<Location>, query: string)
    ensures IsSubsequence(Filtered(locations, query), locations)
  {
    if locations != [] {
      FilteredIsSubsequence(locations[1..], query);
      var rest := Filtered(locations[1..], query);
      if Matches(locations[0], query) {
        assert Filtered(locations, query) == [locations[0]] + rest;
        assert ([locations[0]] + rest)[1..] == rest;
      } else {
        assert Filtered(locations, query) == rest;
        SubsequenceOfTail(rest, locations);
      }
    }
  }

  lemma SubsequenceOfTail(a: seq<Location>, b: seq<Location>)
    requires b != [] && IsSubsequence(a, b[1..])
    ensures IsSubsequence(a, b)
  {
  }

  /** An empty query keeps every location. */
  lemma {:induction false} FilteredEmptyQuery(locations: seq<Location>)
    ensures Filtered(locations, "") == locations
  {
    if locations != [] {
      FilteredEmptyQuery(locations[1..]);
      ContainsEmpty(ToLower(locations[0].locationAddress));
      assert ToLower("") == "";
      assert locations == [locations[0]] + locations[1..];
    }
  }

  /** Filtering the filtered list again with the same query changes nothing. */
  lemma {:induction false} FilteredIdempotent(locations: seq<Location>, query: string)
    ensures Filtered(Filtered(locations, query), query) == Filtered(locations, query)
  {
    if locations != [] {
      FilteredIdempotent(locations[1..], query);
      var rest := Filtered(locations[1..], query);
      if Matches(locations[0], query) {
        var f := [locations[0]] + rest;
        assert f[0] == locations[0] && f[1..] == rest;
        assert Filtered(locations, query) == f;
        assert Filtered(f, query) == [locations[0]] + Filtered(rest, query);
      } else {
        assert Filtered(locations, query) == [] + rest == rest;
      }
    }
  }

  /** The query's letter case does not matter. */
  lemma {:induction false} FilteredIgnoresQueryCase(locations: seq<Location>, query: string)
    ensures Filtered(locations, ToLower(query)) == Filtered(locations, query)
  {
    ToLowerIdempotent(query);
    if locations != [] {
      FilteredIgnoresQueryCase(locations[1..], query);
    }
  }

  /** The stored list after a reply: an ok reply replaces it with `data.data`, any other outcome keeps it. */
  function AfterFetch(locations: seq<Location>, reply: LocationsReply): (r: seq<Location>)
    ensures reply.Replied? && reply.ok ==> r == reply.data
    ensures !(reply.Replied? && reply.ok) ==> r == locations
  {
    if reply.Replied? && reply.ok then reply.data else locations
  }

  /** The alert a reply raises: none for an ok reply, the server's message (or a default) otherwise. */
  function FetchAlerts(reply: LocationsReply): (r: seq<Effect>)
    ensures reply.Replied? && reply.ok <==> r == []
    ensures reply.Replied? && !reply.ok && reply.message != "" ==> r == [Alert("Error", reply.message)]
    ensures reply.Replied? && !reply.ok && reply.message == "" ==> r == [Alert("Error", "Failed to fetch locations")]
    ensures reply.Threw? ==> r == [Alert("Error", "An error occurred while fetching locations")]
  {
    match reply
    case Replied(ok, _, message) =>
      if ok then [] else [Alert("Error", if message != "" then message else "Failed to fetch locations")]
    case Threw => [Alert("Error", "An error occurred while fetching locations")]
  }

  /** What the screen shows: the spinner while loading, else the filtered list. */
  function ShownPanel(loading: bool, locations: seq<Location>, query: string): (p: Panel)
    ensures p.Spinner? <==> loading
    ensures !loading ==> p == LocationList(Filtered(locations, query))
  {
    if loading then Spinner else LocationList(Filtered(locations, query))
  }

  class ViewLocationScreen {
    var searchQuery: string
    var locations: seq<Location>
    var loading: bool
    var userData: Option<User>
    /** Every alert and request the screen has made, oldest first. */
    var effects: seq<Effect>

    /** The first render: empty query and list, and the spinner already on. */
    constructor ()
      ensures searchQuery == "" && locations == [] && loading && userData == None && effects == []
    {
      searchQuery, locations, loading, userData, effects := "", [], true, None, [];
    }

    function Panel(): Panel
      reads this
    {
      ShownPanel(loading, locations, searchQuery)
    }

    /** Typing in the search box. */
    method SetSearchQuery(query: string)
      modifies this`searchQuery
      ensures searchQuery == query
    {
      searchQuery := query;
    }

    /** `handleClear`: the clear button empties the query, so the whole list is shown again. */
    method HandleClear()
      modifies this`searchQuery
      ensures searchQuery == ""
      ensures !loading ==> Panel() == LocationList(locations)
    {
      searchQuery := "";
      FilteredEmptyQuery(locations);
    }

    /** `fetchLocations(userID)`, with the awaited reply as input. */
    method FetchLocations(userID: int, reply: LocationsReply)
      modifies this`locations, this`loading, this`effects
      ensures !loading
      ensures locations == AfterFetch(old(locations), reply)
      ensures effects == old(effects) + [FetchByUser(userID)] + FetchAlerts(reply)
    {
      loading := true;
      effects := effects + [FetchByUser(userID)];
      if reply.Replied? && reply.ok {
        locations := reply.data;
      }
      effects := effects + FetchAlerts(reply);
      loading := false;
    }

    /**
     * The mount effect: read the stored user and, when it has an id, fetch
     * its locations. Without a stored user with an id nothing is requested
     * and the spinner stays on.
     */
    method Mount(stored: StoredUser, reply: LocationsReply)
      modifies this`userData, this`locations, this`loading, this`effects
      ensures userData == if stored.Stored? then Some(stored.user) else old(userData)
      ensures stored.Stored? && HasId(stored.user) ==>
                && !loading
                && locations == AfterFetch(old(locations), reply)
                && effects == old(effects) + [FetchByUser(stored.user.id.value)] + FetchAlerts(reply)
      ensures !(stored.Stored? && HasId(stored.user)) ==>
                loading == old(loading) && locations == old(locations) && effects == old(effects)
    {
      if stored.Stored? {
        userData := Some(stored.user);
        if HasId(stored.user) {
          FetchLocations(stored.user.id.value, reply);
        }
      }
    }
  }
}
