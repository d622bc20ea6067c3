/**
 * app/add_coordinate.jsx: the map screen where the user picks the
 * coordinate of a new location, by searching a place name or by dragging
 * the map, and picks one of the reverse-geocoded places as its address.
 * Confirming sends the address and coordinate to the register-location
 * screen as route parameters.
 */
module AddCoordinate {
  import opened Wrappers
  import opened Strings

  datatype Coord = Coord(latitude: real, longitude: real)

  /** A reverse-geocode result; each field may be null. */
  datatype Place = Place(
    name: Option<string>,
    street: Option<string>,
    city: Option<string>,
    region: Option<string>,
    postalCode: Option<string>)

  /** The outcome of forward geocoding a name: the matches in provider order, or a thrown error. */
  datatype GeocodeReply = Geocoded(matches: seq<Coord>) | GeocodeFailed

  /** The outcome of reverse geocoding a coordinate: the places in provider order, or a rejected promise. */
  datatype ReverseReply = Places(places: seq<Place>) | ReverseFailed

  /** The `params` of the push to 'register_location'. */
  datatype RouteParams = RouteParams(address: string, latitude: real, longitude: real)

  /** What the screen does outward: geocoder calls and the navigation on confirm. */
  datatype Effect = Geocode(query: string) | ReverseGeocode(at: Coord) | PushRegisterLocation(params: RouteParams)

  /** The map's starting coordinate before the device position is known. */
  const InitialCoordinate := Coord(4.662944, 101.143673)

  /** The address sent when no place yields any address text. */
  const NoAddress := "No Address Selected"

  /** The values `filter(Boolean)` keeps: the non-null, non-empty ones, in order. */
  function PresentValues(fields: seq<Option<string>>): (r: seq<string>)
    ensures |r| <= |fields|
    ensures forall i :: 0 <= i < |r| ==> r[i] != ""
    ensures r == [] <==> forall i :: 0 <= i < |fields| ==> !Truthy(fields[i])
  {
    if fields == [] then []
    else (if Truthy(fields[0]) then [fields[0].value] else []) + PresentValues(fields[1..])
  }

  function AddressFields(p: Place): seq<Option<string>>
  {
    [p.name, p.street, p.city, p.region, p.postalCode]
  }

  /** The address of a place: its non-empty name, street, city, region and postal code joined by ", ". */
  function ComposeAddress(p: Place): string
  {
    Join(PresentValues(AddressFields(p)), ", ")
  }

  /** Joining non-empty parts gives the empty string only for no parts. */
  lemma {:induction false} JoinNonEmpty(parts: seq<string>, sep: string)
    requires forall i :: 0 <= i < |parts| ==> parts[i] != ""
    ensures Join(parts, sep) == "" <==> parts == []
  {
    if |parts| > 1 {
      assert |Join(parts, sep)| >= |parts[0]|;
    }
  }

  /** A join starts with its first part and ends with its last. */
  lemma {:induction false} JoinEnds(parts: seq<string>, sep: string)
    requires |parts| >= 1
    ensures var j := Join(parts, sep); |parts[0]| <= |j| && j[..|parts[0]|] == parts[0]
    ensures var j, last := Join(parts, sep), parts[|parts| - 1]; |last| <= |j| && j[|j| - |last|..] == last
  {
    if |parts| > 1 {
      JoinEnds(parts[1..], sep);
      var j, rest := Join(parts, sep), Join(parts[1..], sep);
      assert j == parts[0] + sep + rest;
      assert j[..|parts[0]|] == parts[0];
      assert parts[1..][|parts[1..]| - 1] == parts[|parts| - 1];
      assert j[|j| - |rest|..] == rest;
    }
  }

  /** The composed address is empty exactly when the place has no non-empty field. */
  lemma ComposeAddressEmpty(p: Place)
    ensures ComposeAddress(p) == "" <==>
      !Truthy(p.name) && !Truthy(p.street) && !Truthy(p.city) && !Truthy(p.region) && !Truthy(p.postalCode)
  {
    var fields := AddressFields(p);
    JoinNonEmpty(PresentValues(fields), ", ");
    assert fields[0] == p.name && fields[1] == p.street && fields[2] == p.city;
    assert fields[3] == p.region && fields[4] == p.postalCode;
  }

  /**
   * No separator at either end: the composed address begins with the first
   * kept field and ends with the last one.
   */
  lemma ComposeAddressEnds(p: Place)
    requires PresentValues(AddressFields(p)) != []
    ensures var vs, a := PresentValues(AddressFields(p)), ComposeAddress(p);
      |vs[0]| <= |a| && a[..|vs[0]|] == vs[0] && |vs[|vs| - 1]| <= |a| && a[|a| - |vs[|vs| - 1]|..] == vs[|vs| - 1]
  {
    JoinEnds(PresentValues(AddressFields(p)), ", ");
  }

  /**
   * No empty segment: splitting the composed address at ',' and trimming
   * gives back exactly the kept fields, when no field holds a comma or
   * surrounding blanks.
   */
  lemma ComposeAddressSegments(p: Place)
    requires PresentValues(AddressFields(p)) != []
    requires forall i :: 0 <= i < 5 && AddressFields(p)[i].Some? ==>
               ',' !in AddressFields(p)[i].value && Trimmed(AddressFields(p)[i].value)
    ensures TrimAll(Split(ComposeAddress(p), ',')) == PresentValues(AddressFields(p))
  {
    var vs := PresentValues(AddressFields(p));
    PresentValuesFrom(AddressFields(p));
    SplitCommaSpaceJoin(vs);
  }

  /** Every kept value is one of the Some values of the fields. */
  lemma {:induction false} PresentValuesFrom(fields: seq<Option<string>>)
    ensures forall i :: 0 <= i < |PresentValues(fields)| ==> Some(PresentValues(fields)[i]) in fields
  {
    if fields != [] {
      PresentValuesFrom(fields[1..]);
      var rest := PresentValues(fields[1..]);
      var head: seq<string> := if Truthy(fields[0]) then [fields[0].value] else [];
      forall i | 0 <= i < |head + rest|
        ensures Some((head + rest)[i]) in fields
      {
        if i < |head| {
          assert (head + rest)[i] == fields[0].value;
        } else {
          assert (head + rest)[i] == rest[i - |head|];
          assert Some(rest[i - |head|]) in fields[1..];
        }
      }
    }
  }

  /** The `address` route parameter: the selected place's address, or the fallback text when that is empty. */
  function AddressParam(selected: Option<Place>): (a: string)
    ensures selected.None? ==> a == NoAddress
    ensures selected.Some? && ComposeAddress(selected.value) == "" ==> a == NoAddress
    ensures selected.Some? && ComposeAddress(selected.value) != "" ==> a == ComposeAddress(selected.value)
    ensures a != ""
  {
    var selectedAddress := if selected.Some? then ComposeAddress(selected.value) else "";
    if selectedAddress != "" then selectedAddress else NoAddress
  }

  /** The parameters of the push to the register-location screen. */
  function SubmitParams(selected: Option<Place>, coordinate: Coord): (r: RouteParams)
    ensures r.address != ""
    ensures selected.None? ==> r.address == NoAddress
    ensures selected.Some? && ComposeAddress(selected.value) != "" ==> r.address == ComposeAddress(selected.value)
    ensures selected.Some? && ComposeAddress(selected.value) == "" ==> r.address == NoAddress
    ensures r.latitude == coordinate.latitude && r.longitude == coordinate.longitude
  {
    RouteParams(AddressParam(selected), coordinate.latitude, coordinate.longitude)
  }

  /** How a possibly-null field prints inside a template literal. */
  function Text(o: Option<string>): string
  {
    if o.Some? then o.value else "null"
  }

  /** The title of a place in the list: its name, or "street, city" when the name is empty or null. */
  function PlaceTitle(p: Place): (t: string)
    ensures Truthy(p.name) ==> t == p.name.value
    ensures !Truthy(p.name) ==> t == Text(p.street) + ", " + Text(p.city)
    ensures t != ""
  {
    if Truthy(p.name) then p.name.value else Text(p.street) + ", " + Text(p.city)
  }

  /** `geocodeLocationByName`: the first match's coordinate, or null when there is none or the geocoder throws. */
  function GeocodeByName(reply: GeocodeReply): (r: Option<Coord>)
    ensures r.Some? <==> reply.Geocoded? && reply.matches != []
    ensures r.Some? ==> r.value == reply.matches[0]
  {
    if reply.Geocoded? && |reply.matches| > 0 then Some(reply.matches[0]) else None
  }

  /** The nearby places after a reverse geocode: the reply's list as is, or unchanged when the call rejects. */
  function AfterReverse(places: seq<Place>, reply: ReverseReply): (r: seq<Place>)
    ensures reply.Places? ==> r == reply.places
    ensures reply.ReverseFailed? ==> r == places
  {
    if reply.Places? then reply.places else places
  }

  class AddCoordinateScreen {
    var searchQuery: string
    var coordinate: Coord
    var currentLocation: Option<Coord>
    var nearbyPlaces: seq<Place>
    var selectedPlace: Option<Place>
    /** Every geocoder call and navigation the screen has made, oldest first. */
    var effects: seq<Effect>

    constructor ()
      ensures searchQuery == "" && coordinate == InitialCoordinate && currentLocation == None
      ensures nearbyPlaces == [] && selectedPlace == None && effects == []
    {
      searchQuery, coordinate, currentLocation := "", InitialCoordinate, None;
      nearbyPlaces, selectedPlace, effects := [], None, [];
    }

    /** The confirm button is enabled only while a place is selected. */
    predicate ConfirmEnabled()
      reads this
    {
      selectedPlace.Some?
    }

    /**
     * The mount effect: when location permission is granted and the device
     * position is read, that position becomes both the current location
     * and the coordinate, and the places around it are looked up. A denied
     * permission, or a position read that rejects (`position` is None),
     * ends the effect before any state is set.
     */
    method Mount(granted: bool, position: Option<Coord>, reply: ReverseReply)
      modifies this`coordinate, this`currentLocation, this`nearbyPlaces, this`effects
      ensures granted && position.Some? ==>
                && coordinate == position.value && currentLocation == position
                && nearbyPlaces == AfterReverse(old(nearbyPlaces), reply)
                && effects == old(effects) + [ReverseGeocode(position.value)]
      ensures !(granted && position.Some?) ==>
                && coordinate == old(coordinate) && currentLocation == old(currentLocation)
                && nearbyPlaces == old(nearbyPlaces) && effects == old(effects)
    {
      if granted && position.Some? {
        currentLocation := position;
        coordinate := position.value;
        effects := effects + [ReverseGeocode(position.value)];
        nearbyPlaces := AfterReverse(nearbyPlaces, reply);
      }
    }

    method SetSearchQuery(query: string)
      modifies this`searchQuery
      ensures searchQuery == query
    {
      searchQuery := query;
    }

    /** `handleClear`. */
    method HandleClear()
      modifies this`searchQuery
      ensures searchQuery == ""
    {
      searchQuery := "";
    }

    /**
     * `handleSearchSubmit`, with the geocoder replies as input. An empty
     * query does nothing; a miss changes nothing but the call log; a hit
     * moves both the coordinate and the current location to the match and
     * replaces the nearby places. The selection is kept.
     */
    method HandleSearchSubmit(geocoded: GeocodeReply, reverse: ReverseReply)
      modifies this`coordinate, this`currentLocation, this`nearbyPlaces, this`effects
      ensures searchQuery == "" ==> effects == old(effects)
      ensures searchQuery != "" && GeocodeByName(geocoded).None? ==> effects == old(effects) + [Geocode(searchQuery)]
      ensures searchQuery != "" && GeocodeByName(geocoded).Some? ==>
                var c := GeocodeByName(geocoded).value;
                && coordinate == c && currentLocation == Some(c)
                && nearbyPlaces == AfterReverse(old(nearbyPlaces), reverse)
                && effects == old(effects) + [Geocode(searchQuery), ReverseGeocode(c)]
      ensures !(searchQuery != "" && GeocodeByName(geocoded).Some?) ==>
                coordinate == old(coordinate) && currentLocation == old(currentLocation) && nearbyPlaces == old(nearbyPlaces)
    {
      if searchQuery != "" {
        effects := effects + [Geocode(searchQuery)];
        var found := GeocodeByName(geocoded);
        if found.Some? {
          coordinate := found.value;
          currentLocation := found;
          effects := effects + [ReverseGeocode(found.value)];
          nearbyPlaces := AfterReverse(nearbyPlaces, reverse);
        }
      }
    }

    /**
     * `handleRegionChangeComplete`: the settled map centre becomes the
     * coordinate and the nearby places are those around it. The current
     * location and the selection are kept.
     */
    method HandleRegionChangeComplete(region: Coord, reverse: ReverseReply)
      modifies this`coordinate, this`nearbyPlaces, this`effects
      ensures coordinate == region
      ensures nearbyPlaces == AfterReverse(old(nearbyPlaces), reverse)
      ensures effects == old(effects) + [ReverseGeocode(region)]
    {
      coordinate := region;
      effects := effects + [ReverseGeocode(region)];
      nearbyPlaces := AfterReverse(nearbyPlaces, reverse);
    }

    /** Tapping the `index`-th listed place makes it the selection. */
    method SelectPlace(index: nat)
      requires index < |nearbyPlaces|
      modifies this`selectedPlace
      ensures selectedPlace == Some(nearbyPlaces[index])
      ensures ConfirmEnabled()
    {
      selectedPlace := Some(nearbyPlaces[index]);
    }

    /**
     * A press on the confirm button. While it is disabled nothing happens;
     * otherwise `handleSubmit` pushes the register-location screen with the
     * selected place's address and the current coordinate.
     */
    method PressConfirm()
      modifies this`effects
      ensures !ConfirmEnabled() ==> effects == old(effects)
      ensures ConfirmEnabled() ==> effects == old(effects) + [PushRegisterLocation(SubmitParams(selectedPlace, coordinate))]
    {
      if ConfirmEnabled() {
        effects := effects + [PushRegisterLocation(SubmitParams(selectedPlace, coordinate))];
      }
    }
  }
}
