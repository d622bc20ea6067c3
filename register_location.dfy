/**
 * app/register_location.jsx: the form that collects an address, a
 * "lat, lon" coordinate text and a captured video, accumulates gyroscope
 * readings, and submits the location after a reCAPTCHA challenge. Pressing
 * Submit only opens the challenge; the location is posted only after the
 * backend has confirmed the challenge token and only when every field is
 * filled in.
 */
module RegisterLocation {
  import opened Wrappers
  import opened Strings
  import opened Session

  /** The route parameters the screen is opened with; each may be missing. */
  datatype Params = Params(address: Option<string>, latitude: Option<string>, longitude: Option<string>)

  /** One gyroscope reading: the rotation rate about each axis. */
  datatype Sample = Sample(x: real, y: real, z: real)

  /** What the camera returns: a cancel, or the captured video's URI. */
  datatype CaptureResult = Canceled | Captured(uri: string)

  /** The outcome of `/api/verify-recaptcha`: the body's `success` flag, or an exception. */
  datatype VerifyReply = Verified(success: bool) | VerifyThrew

  /** The outcome of `/api/location/add`: the HTTP status and the body's `message`, or an exception. */
  datatype SubmitReply = Responded(status: int, message: string) | SubmitThrew

  /**
   * The multipart body of `/api/location/add`. The latitude and longitude
   * are the trimmed pieces of the coordinate text (before the number
   * conversion and rounding the client applies to them).
   */
  datatype LocationForm = LocationForm(userID: Option<int>, address: string, latitude: string, longitude: string, media: string)

  /** What the screen does outward, in order. */
  datatype Effect =
    | OpenChallenge
    | VerifyToken(token: string)
    | AddLocation(form: LocationForm)
    | Alert(title: string, message: string)
    | Navigate(route: string)

  /** The coordinate text built from the route parameters. */
  function ComposeCoordinate(latitude: string, longitude: string): string
  {
    latitude + ", " + longitude
  }

  /** `coordinate.split(',').map(coord => coord.trim())`. */
  function CoordinateParts(coordinate: string): (parts: seq<string>)
    ensures |parts| >= 1
  {
    TrimAll(Split(coordinate, ','))
  }

  /**
   * Splitting the composed coordinate gives the two parameters back
   * (trimmed), when neither holds a comma.
   */
  lemma CoordinateRoundTrip(latitude: string, longitude: string)
    requires ',' !in latitude && ',' !in longitude
    ensures CoordinateParts(ComposeCoordinate(latitude, longitude)) == [Trim(latitude), Trim(longitude)]
    ensures Trimmed(latitude) && Trimmed(longitude) ==>
              CoordinateParts(ComposeCoordinate(latitude, longitude)) == [latitude, longitude]
  {
    var parts := [latitude, longitude];
    assert Join(parts, ", ") == ComposeCoordinate(latitude, longitude);
    SplitCommaSpaceJoin(parts);
  }

  /** `address && coordinate && media`: the required-fields test. */
  predicate FieldsPresent(address: string, coordinate: string, media: Option<string>)
  {
    address != "" && coordinate != "" && Truthy(media)
  }

  /** The rotation one reading adds: `|x| + |y| + |z|`. */
  function SampleRotation(s: Sample): (r: real)
    ensures r >= 0.0
    ensures r == 0.0 <==> s.x == 0.0 && s.y == 0.0 && s.z == 0.0
  {
    Abs(s.x) + Abs(s.y) + Abs(s.z)
  }

  function Abs(v: real): real
  {
    if v < 0.0 then -v else v
  }

  /** The accumulated rotation of a sequence of readings, in arrival order. */
  function TotalRotation(samples: seq<Sample>): real
  {
    if samples == [] then 0.0
    else TotalRotation(samples[..|samples| - 1]) + SampleRotation(samples[|samples| - 1])
  }

  /** The total of two runs of readings is the sum of their totals. */
  lemma {:induction false} TotalRotationAppend(a: seq<Sample>, b: seq<Sample>)
    ensures TotalRotation(a + b) == TotalRotation(a) + TotalRotation(b)
  {
    if b == [] {
      assert a + b == a;
    } else {
      TotalRotationAppend(a, b[..|b| - 1]);
      assert (a + b)[..|a + b| - 1] == a + b[..|b| - 1];
    }
  }

  /** The total is never negative. */
  lemma {:induction false} TotalRotationNonNegative(samples: seq<Sample>)
    ensures TotalRotation(samples) >= 0.0
  {
    if samples != [] {
      TotalRotationNonNegative(samples[..|samples| - 1]);
    }
  }

  /** Later readings never decrease the total. */
  lemma TotalRotationMonotone(a: seq<Sample>, b: seq<Sample>)
    ensures TotalRotation(a) <= TotalRotation(a + b)
  {
    TotalRotationAppend(a, b);
    TotalRotationNonNegative(b);
  }

  /** The progress shown: the total over 360, with no upper clamp. */
  function Progress(total: real): real
  {
    total / 360.0
  }

  /** The alerts and navigation that follow the location POST. */
  function SubmitOutcome(reply: SubmitReply): (r: seq<Effect>)
    ensures reply.Responded? && reply.status == 201 ==> r == [Alert("Success", reply.message), Navigate("/add_location")]
    ensures reply.Responded? && reply.status != 201 ==> r == [Alert("Error", reply.message)]
    ensures reply.SubmitThrew? ==> r == [Alert("Error", "Failed to submit location")]
    ensures forall i :: 0 <= i < |r| ==> !r[i].AddLocation?
  {
    match reply
    case Responded(status, message) =>
      if status == 201 then [Alert("Success", message), Navigate("/add_location")] else [Alert("Error", message)]
    case SubmitThrew => [Alert("Error", "Failed to submit location")]
  }

  /**
   * `handleSubmitLocation` on the current fields. Missing fields raise the
   * required-fields alert. A coordinate text without a comma (no
   * longitude piece) or a missing user makes the handler throw before the
   * request: nothing happens. Otherwise the form is posted and the reply
   * classified.
   */
  function SubmitLocationEffects(address: string, coordinate: string, media: Option<string>, user: Option<User>,
                                 reply: SubmitReply): (r: seq<Effect>)
    ensures !FieldsPresent(address, coordinate, media) ==> r == [Alert("Error", "All fields are required.")]
    ensures (exists i :: 0 <= i < |r| && r[i].AddLocation?) <==>
              FieldsPresent(address, coordinate, media) && |CoordinateParts(coordinate)| >= 2 && user.Some?
    ensures FieldsPresent(address, coordinate, media) && |CoordinateParts(coordinate)| >= 2 && user.Some? ==>
              var parts := CoordinateParts(coordinate);
              r == [AddLocation(LocationForm(user.value.id, address, parts[0], parts[1], media.value))] + SubmitOutcome(reply)
  {
    if !FieldsPresent(address, coordinate, media) then
      [Alert("Error", "All fields are required.")]
    else
      var parts := CoordinateParts(coordinate);
      if |parts| < 2 || user.None? then []
      else
        var post := AddLocation(LocationForm(user.value.id, address, parts[0], parts[1], media.value));
        var r := [post] + SubmitOutcome(reply);
        assert r[0].AddLocation?;
        r
  }

  /**
   * `handleRecaptchaVerify(token)`: the token is sent for verification;
   * only a reply whose `success` is true leads on to `handleSubmitLocation`.
   */
  function VerifyEffects(token: string, verify: VerifyReply, address: string, coordinate: string,
                         media: Option<string>, user: Option<User>, reply: SubmitReply): (r: seq<Effect>)
    ensures |r| >= 1 && r[0] == VerifyToken(token)
    ensures verify == Verified(false) ==> r == [VerifyToken(token), Alert("Failed", "reCAPTCHA verification failed")]
    ensures verify == VerifyThrew ==> r == [VerifyToken(token), Alert("Error", "Verification failed")]
    ensures verify == Verified(true) ==> r == [VerifyToken(token)] + SubmitLocationEffects(address, coordinate, media, user, reply)
  {
    [VerifyToken(token)] +
      match verify
      case Verified(success) =>
        if success then SubmitLocationEffects(address, coordinate, media, user, reply)
        else [Alert("Failed", "reCAPTCHA verification failed")]
      case VerifyThrew => [Alert("Error", "Verification failed")]
  }

  /**
   * End to end: with an address and a video present, comma-free trimmed
   * coordinate parameters and a loaded user, a verified token leads to
   * exactly one post whose latitude and longitude are the parameters.
   */
  lemma VerifiedParamsPostExactly(token: string, address: string, latitude: string, longitude: string,
                                  uri: string, user: User, reply: SubmitReply)
    requires address != "" && uri != ""
    requires ',' !in latitude && ',' !in longitude && Trimmed(latitude) && Trimmed(longitude)
    ensures VerifyEffects(token, Verified(true), address, ComposeCoordinate(latitude, longitude), Some(uri), Some(user), reply)
            == [VerifyToken(token), AddLocation(LocationForm(user.id, address, latitude, longitude, uri))] + SubmitOutcome(reply)
  {
    ComposedCoordinateNonEmpty(latitude, longitude);
    CoordinateRoundTrip(latitude, longitude);
    VerifiedPostWithParts(token, address, ComposeCoordinate(latitude, longitude), uri, user, reply, latitude, longitude);
  }

  /** A verified token with every field present and a two-piece coordinate posts exactly those pieces. */
  lemma VerifiedPostWithParts(token: string, address: string, coordinate: string, uri: string, user: User,
                              reply: SubmitReply, latitude: string, longitude: string)
    requires address != "" && coordinate != "" && uri != ""
    requires CoordinateParts(coordinate) == [latitude, longitude]
    ensures VerifyEffects(token, Verified(true), address, coordinate, Some(uri), Some(user), reply)
            == [VerifyToken(token), AddLocation(LocationForm(user.id, address, latitude, longitude, uri))] + SubmitOutcome(reply)
  {
    SubmitWithParts(address, coordinate, uri, user, reply, latitude, longitude);
    var post := AddLocation(LocationForm(user.id, address, latitude, longitude, uri));
    assert VerifyEffects(token, Verified(true), address, coordinate, Some(uri), Some(user), reply)
           == [VerifyToken(token)] + ([post] + SubmitOutcome(reply));
    PrependTwo(VerifyToken(token), post, SubmitOutcome(reply));
  }

  /** The composed coordinate text is never empty: it holds at least the ", " separator. */
  lemma ComposedCoordinateNonEmpty(latitude: string, longitude: string)
    ensures ComposeCoordinate(latitude, longitude) != ""
  {
    assert ComposeCoordinate(latitude, longitude)[|latitude|] == ',';
  }

  /** With every field present and a two-piece coordinate, the submit handler posts exactly those pieces. */
  lemma SubmitWithParts(address: string, coordinate: string, uri: string, user: User, reply: SubmitReply,
                        latitude: string, longitude: string)
    requires address != "" && coordinate != "" && uri != ""
    requires CoordinateParts(coordinate) == [latitude, longitude]
    ensures SubmitLocationEffects(address, coordinate, Some(uri), Some(user), reply)
            == [AddLocation(LocationForm(user.id, address, latitude, longitude, uri))] + SubmitOutcome(reply)
  {
    assert FieldsPresent(address, coordinate, Some(uri));
  }

  lemma PrependTwo(a: Effect, b: Effect, rest: seq<Effect>)
    ensures [a] + ([b] + rest) == [a, b] + rest
  {
  }

  /** A location POST follows the token check only when the check succeeded and every field is filled in. */
  lemma PostNeedsVerification(token: string, verify: VerifyReply, address: string, coordinate: string,
                              media: Option<string>, user: Option<User>, reply: SubmitReply, i: int)
    requires 0 <= i < |VerifyEffects(token, verify, address, coordinate, media, user, reply)|
    requires VerifyEffects(token, verify, address, coordinate, media, user, reply)[i].AddLocation?
    ensures verify == Verified(true) && FieldsPresent(address, coordinate, media)
    ensures i == 1
  {
    var r := VerifyEffects(token, verify, address, coordinate, media, user, reply);
    if verify == Verified(true) {
      var s := SubmitLocationEffects(address, coordinate, media, user, reply);
      assert r == [VerifyToken(token)] + s;
      assert s[i - 1].AddLocation?;
    }
  }

  /** After the media is deleted, a verified submit stops at the required-fields alert and posts nothing. */
  lemma DeletedMediaBlocksPost(token: string, address: string, coordinate: string, user: Option<User>, reply: SubmitReply)
    ensures VerifyEffects(token, Verified(true), address, coordinate, None, user, reply)
            == [VerifyToken(token), Alert("Error", "All fields are required.")]
  {
  }

  /** Every posted form follows a token check directly and carries a non-empty address and media. */
  ghost predicate PostsFollowChecks(effects: seq<Effect>)
  {
    forall i :: 0 <= i < |effects| && effects[i].AddLocation? ==>
      && i > 0 && effects[i - 1].VerifyToken?
      && effects[i].form.address != "" && effects[i].form.media != ""
  }

  /** Appending one verification round keeps every post directly after its token check. */
  lemma {:induction false} VerifyRoundKeepsOrder(effects: seq<Effect>, token: string, verify: VerifyReply, address: string,
                                                 coordinate: string, media: Option<string>, user: Option<User>,
                                                 reply: SubmitReply)
    requires PostsFollowChecks(effects)
    ensures PostsFollowChecks(effects + VerifyEffects(token, verify, address, coordinate, media, user, reply))
  {
    var r := VerifyEffects(token, verify, address, coordinate, media, user, reply);
    var all := effects + r;
    forall i | 0 <= i < |all| && all[i].AddLocation?
      ensures i > 0 && all[i - 1].VerifyToken? && all[i].form.address != "" && all[i].form.media != ""
    {
      if i >= |effects| {
        var k := i - |effects|;
        assert r[k] == all[i];
        PostNeedsVerification(token, verify, address, coordinate, media, user, reply, k);
        assert all[i - 1] == r[0];
      } else {
        assert all[i] == effects[i] && all[i - 1] == effects[i - 1];
      }
    }
  }

  class RegisterLocationScreen {
    var address: string
    var coordinate: string
    var media: Option<string>
    var userData: Option<User>
    var totalRotation: real
    var rotationProgress: real
    /** Every challenge, request, alert and navigation the screen has made, oldest first. */
    var effects: seq<Effect>
    /** The gyroscope readings received so far. */
    ghost var samples: seq<Sample>

    ghost predicate Valid()
      reads this
    {
      && totalRotation == TotalRotation(samples)
      && rotationProgress == Progress(totalRotation)
      && PostsFollowChecks(effects)
    }

    constructor ()
      ensures Valid()
      ensures address == "" && coordinate == "" && media == None && userData == None
      ensures totalRotation == 0.0 && rotationProgress == 0.0 && effects == [] && samples == []
    {
      address, coordinate, media, userData := "", "", None, None;
      totalRotation, rotationProgress, effects := 0.0, 0.0, [];
      samples := [];
    }

    /** The mount effect that reads the stored user. */
    method LoadUser(stored: StoredUser)
      requires Valid()
      modifies this`userData
      ensures Valid()
      ensures userData == if stored.Stored? then Some(stored.user) else old(userData)
    {
      if stored.Stored? {
        userData := Some(stored.user);
      }
    }

    /**
     * The params effect: a non-empty address parameter replaces the
     * address, and the coordinate text is rebuilt only when both the
     * latitude and the longitude parameters are non-empty.
     */
    method ApplyParams(params: Params)
      requires Valid()
      modifies this`address, this`coordinate
      ensures Valid()
      ensures address == if Truthy(params.address) then params.address.value else old(address)
      ensures coordinate == if Truthy(params.latitude) && Truthy(params.longitude)
                            then ComposeCoordinate(params.latitude.value, params.longitude.value)
                            else old(coordinate)
    {
      if Truthy(params.address) {
        address := params.address.value;
      }
      if Truthy(params.latitude) && Truthy(params.longitude) {
        coordinate := ComposeCoordinate(params.latitude.value, params.longitude.value);
      }
    }

    /** Typing in the coordinate box. */
    method SetCoordinate(text: string)
      requires Valid()
      modifies this`coordinate
      ensures Valid()
      ensures coordinate == text
    {
      coordinate := text;
    }

    /** The gyroscope listener: each reading adds its rotation to the running total. */
    method OnGyroscopeSample(s: Sample)
      requires Valid()
      modifies this`totalRotation, this`rotationProgress, this`samples
      ensures Valid()
      ensures samples == old(samples) + [s]
      ensures totalRotation == old(totalRotation) + SampleRotation(s)
      ensures totalRotation >= old(totalRotation)
      ensures rotationProgress == Progress(totalRotation)
    {
      totalRotation := totalRotation + SampleRotation(s);
      rotationProgress := Progress(totalRotation);
      samples := samples + [s];
      assert (samples)[..|samples| - 1] == old(samples);
    }

    /** `uploadVideo`: the captured video replaces the media unless the capture was canceled. */
    method UploadVideo(result: CaptureResult)
      requires Valid()
      modifies this`media
      ensures Valid()
      ensures media == if result.Captured? then Some(result.uri) else old(media)
    {
      if result.Captured? {
        media := Some(result.uri);
      }
    }

    /** `deleteMedia`. */
    method DeleteMedia()
      requires Valid()
      modifies this`media
      ensures Valid()
      ensures media == None
      ensures !FieldsPresent(address, coordinate, media)
    {
      media := None;
    }

    /** `handleSubmit`: pressing Submit opens the challenge and sends nothing. */
    method HandleSubmit()
      requires Valid()
      modifies this`effects
      ensures Valid()
      ensures effects == old(effects) + [OpenChallenge]
    {
      effects := effects + [OpenChallenge];
      assert effects[|effects| - 1] == OpenChallenge;
      assert forall i :: 0 <= i < |old(effects)| ==> effects[i] == old(effects)[i];
    }

    /**
     * `handleRecaptchaVerify(token)` with the awaited replies as input: the
     * token check, then (only on success) the required-fields test and the
     * location POST. No field changes.
     */
    method HandleRecaptchaVerify(token: string, verify: VerifyReply, reply: SubmitReply)
      requires Valid()
      modifies this`effects
      ensures Valid()
      ensures effects == old(effects) + VerifyEffects(token, verify, address, coordinate, media, userData, reply)
    {
      VerifyRoundKeepsOrder(effects, token, verify, address, coordinate, media, userData, reply);
      effects := effects + VerifyEffects(token, verify, address, coordinate, media, userData, reply);
    }
  }
}
