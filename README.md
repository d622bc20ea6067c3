# SkyRealm location screens: a Dafny model of their state rules

SkyRealm is a React Native app in which a field user registers a physical
location: they pick a coordinate and an address on a map, record a video
while turning around the site, pass a reCAPTCHA challenge, and submit the
evidence to the backend for approval. They can also list their registered
locations, and there is a sign-up screen.

This project models the rules the screen handlers apply to their state.
Each screen is a class whose fields are the screen's React state. Each
handler is a method. Every outward action (an alert, a navigation, an HTTP
request, opening the challenge) is appended to an `effects` log. Each
awaited reply (geocoder, camera, reCAPTCHA, `fetch`, the device store) is a
parameter whose datatype lists its possible outcomes. Decision rules that
are plain expressions (the address join, the coordinate split, the list
filter, the status colour, the sign-up checks, what a reply does) are
functions, and the properties are lemmas about them.

Modules:

- `Wrappers`: `Option` and JavaScript truthiness of an optional string.
- `Strings`: `join`, one-character `split`, `trim`, ASCII `toLowerCase` and
  `includes`, with the round-trip lemma `SplitCommaSpaceJoin`. In words: splitting a ", "-join at ',' and trimming gives the parts back, if no part holds a comma.
- `Session`: the stored user record, and the `user.id` truthiness test.
- `LocationRecords`: the location record, `getStatusStyle`, the reply of
  the locations-by-user request, and what a list area shows.
- `RegisterLocation`, `AddCoordinate`, `ViewLocation`, `AddLocation`,
  `Signup`: one module per screen file.

Conventions:

- A message or `data` field missing from a reply reads as `""` or `[]`.
  Every place the code tests these fields uses JavaScript falsiness, so the
  two cases behave the same.
- Coordinates on the map screen are `real`. The coordinate text on the
  register screen is a string. The register form carries its trimmed
  pieces.

The model follows the code on these points:

- There is no debouncing, no latest-wins suppression of stale geocoder
  replies, no retry, no backoff and no idempotency key.
- The gyroscope total adds `|x| + |y| + |z|` per reading. It has no time
  step, no gap or noise-floor handling, and no reset.
- Progress is total/360 with no clamp and no completion threshold. Submit
  does not depend on the rotation at all.
- Submit is not blocked until the form is ready. It always opens the
  challenge, and the required-fields test runs only after the token check
  has succeeded.

## Model

| member | source | states |
|---|---|---|
| `RegisterLocation.RegisterLocationScreen.constructor` | app/register_location.jsx:19-26 | The form starts with an empty address and coordinate, no media, no user, zero rotation and nothing done. |
| `RegisterLocation.RegisterLocationScreen.LoadUser` | app/register_location.jsx:29-43 | A parsed stored user becomes `userData`. No user, or unparsable text, leaves it as before. The class invariant (rotation total and post ordering) is kept. |
| `RegisterLocation.RegisterLocationScreen.ApplyParams` | app/register_location.jsx:45-52 | A non-empty `address` parameter replaces the address. The coordinate becomes `"<lat>, <lon>"` only when both parameters are non-empty. Otherwise each field is unchanged. The class invariant (rotation total and post ordering) is kept. |
| `RegisterLocation.ComposeCoordinate` | app/register_location.jsx:49-50 | Its definition is the `"${lat}, ${lon}"` template. `ComposedCoordinateNonEmpty` proves the text non-empty, and `CoordinateRoundTrip` proves that splitting it gives the parameters back. |
| `RegisterLocation.CoordinateRoundTrip` | app/register_location.jsx:136 | Splitting the composed coordinate at ',' and trimming gives exactly `[trim(lat), trim(lon)]` when neither holds a comma. That is `[lat, lon]` when they are already trimmed. |
| `RegisterLocation.CoordinateParts` | app/register_location.jsx:136 | The split-and-trim of the coordinate text always has at least one piece. With fewer than two, the longitude is undefined. |
| `RegisterLocation.RegisterLocationScreen.SetCoordinate` | app/register_location.jsx:191-197 | Typing in the coordinate box replaces the coordinate text. The class invariant (rotation total and post ordering) is kept. |
| `RegisterLocation.TotalRotation` | app/register_location.jsx:59-62 | Its definition is the listener's running sum: each reading adds `SampleRotation` in arrival order. `TotalRotationAppend`, `TotalRotationNonNegative` and `TotalRotationMonotone` state its properties, and the register screen's invariant ties `totalRotation` to it. |
| `RegisterLocation.Progress` | app/register_location.jsx:62 | Its definition is the progress rule: total/360, with no clamp. `OnGyroscopeSample` keeps `rotationProgress` equal to it. |
| `RegisterLocation.SampleRotation` | app/register_location.jsx:61 | A reading adds `|x|+|y|+|z|`. That is never negative, and it is zero only for a reading that is zero on all three axes, so there is no noise floor. |
| `RegisterLocation.TotalRotationAppend` | app/register_location.jsx:59-62 | The total of two runs of readings is the sum of their totals. |
| `RegisterLocation.TotalRotationNonNegative` | app/register_location.jsx:59-62 | The accumulated rotation is never negative. |
| `RegisterLocation.TotalRotationMonotone` | app/register_location.jsx:59-62 | Further readings never decrease the total. |
| `RegisterLocation.RegisterLocationScreen.OnGyroscopeSample` | app/register_location.jsx:59-62 | Each reading adds its rotation to `totalRotation`, which never decreases. Progress is total/360. The class invariant ties the total to the readings received. |
| `RegisterLocation.RegisterLocationScreen.UploadVideo` | app/register_location.jsx:74-84 | A captured video's URI replaces the media. A canceled capture leaves it unchanged. The class invariant (rotation total and post ordering) is kept. |
| `RegisterLocation.RegisterLocationScreen.DeleteMedia` | app/register_location.jsx:86-88 | The media becomes null, so the required-fields test fails. The class invariant (rotation total and post ordering) is kept. |
| `RegisterLocation.FieldsPresent` | app/register_location.jsx:130 | Its definition is the required-fields test `address && coordinate && media`. `SubmitLocationEffects`, `PostNeedsVerification`, `DeleteMedia` and `DeletedMediaBlocksPost` state what it decides. |
| `RegisterLocation.DeletedMediaBlocksPost` | app/register_location.jsx:129-133 | With the media deleted, even a successful token check ends in 'All fields are required.' and posts nothing. |
| `RegisterLocation.RegisterLocationScreen.HandleSubmit` | app/register_location.jsx:125-127 | Pressing Submit only opens the challenge. Nothing is sent and no field changes. |
| `RegisterLocation.SubmitOutcome` | app/register_location.jsx:164-174 | Status 201: a success alert with the server's message, then navigation to '/add_location'. Any other status: an error alert with the message as-is. An exception: 'Failed to submit location'. None of these is a post. |
| `RegisterLocation.SubmitLocationEffects` | app/register_location.jsx:129-175 | Missing address, coordinate or media gives exactly the required-fields alert. A form is posted if and only if the fields are present, the coordinate has two pieces and a user is loaded. The post carries the user id, the address, the two trimmed pieces and the media URI, and is followed by the reply's outcome. |
| `RegisterLocation.VerifyEffects` | app/register_location.jsx:90-115 | The token is always sent for checking first. `success` false alerts 'reCAPTCHA verification failed'. An exception alerts 'Verification failed'. Only `success` true continues into the submit handler. |
| `RegisterLocation.PostNeedsVerification` | app/register_location.jsx:95-115 | A location post can appear in a verification round only when the check replied `success` true and every field was present. It then comes directly after the token check. |
| `RegisterLocation.SubmitWithParts` | app/register_location.jsx:129-153 | With address, coordinate and media present and a coordinate that splits into two pieces, the submit handler posts exactly one form carrying the user id, the address, those two pieces and the media URI, followed by the reply's outcome. |
| `RegisterLocation.VerifiedPostWithParts` | app/register_location.jsx:95-153 | The same holds one step earlier: a token check that succeeds leads to the token request, then that one post, then the reply's outcome. |
| `RegisterLocation.ComposedCoordinateNonEmpty` | app/register_location.jsx:49-50 | The coordinate built from the parameters is never empty, so it passes the required-fields test. |
| `RegisterLocation.VerifiedParamsPostExactly` | app/register_location.jsx:45-153 | End to end: with an address and a video present, a loaded user, and route coordinates that hold no comma and no outer blanks, a verified token posts exactly one form whose latitude and longitude are the route parameters unchanged. |
| `RegisterLocation.VerifyRoundKeepsOrder` | app/register_location.jsx:106-108 | Across any history, every posted form comes directly after a token check and has a non-empty address and media. Each verification round keeps this true. |
| `RegisterLocation.RegisterLocationScreen.HandleRecaptchaVerify` | app/register_location.jsx:90-93 | The token-verified callback appends the verification round's effects and keeps the class invariant, including the ordering above. No form field changes. |
| `AddCoordinate.AddCoordinateScreen.constructor` | app/add_coordinate.jsx:16-20 | Empty query, the fixed start coordinate (4.662944, 101.143673), no current location, no places, no selection. |
| `AddCoordinate.AddCoordinateScreen.Mount` | app/add_coordinate.jsx:22-47 | With permission and a position read, the device position becomes both the coordinate and the current location, it is reverse-geocoded, and the places are replaced. A denied permission, or a position read that rejects, changes nothing and makes no call. |
| `AddCoordinate.GeocodeByName` | app/add_coordinate.jsx:49-63 | The first match's coordinate when there is a match. Null for an empty list or a geocoder error. |
| `AddCoordinate.AfterReverse` | app/add_coordinate.jsx:99-103 | A reverse-geocode reply replaces the nearby places with its list in provider order. A rejected call leaves them as they were. |
| `AddCoordinate.AddCoordinateScreen.HandleSearchSubmit` | app/add_coordinate.jsx:65-86 | An empty query does nothing. A miss leaves the coordinate, current location and places unchanged. A hit sets the coordinate and the current location to the same match and reverse-geocodes it. |
| `AddCoordinate.AddCoordinateScreen.HandleClear` | app/add_coordinate.jsx:88-90 | The query becomes ''. |
| `AddCoordinate.AddCoordinateScreen.SetSearchQuery` | app/add_coordinate.jsx:160-167 | Typing replaces the query. |
| `AddCoordinate.AddCoordinateScreen.HandleRegionChangeComplete` | app/add_coordinate.jsx:92-104 | The settled region becomes the coordinate and is reverse-geocoded. The places become the reply's list. The current location and the selection are kept. |
| `AddCoordinate.ComposeAddress` | app/add_coordinate.jsx:120-127 | Its definition is the rule: name, street, city, region and postal code, kept by `filter(Boolean)` and joined with ", ". `ComposeAddressEmpty`, `ComposeAddressEnds` and `ComposeAddressSegments` state its properties. |
| `AddCoordinate.PresentValues` | app/add_coordinate.jsx:121-127 | `filter(Boolean)` keeps only non-empty values, never more than it is given. It is empty exactly when every field is null or empty. |
| `AddCoordinate.ComposeAddressEmpty` | app/add_coordinate.jsx:120-127 | The composed address is '' if and only if name, street, city, region and postal code are all null or empty. |
| `AddCoordinate.ComposeAddressEnds` | app/add_coordinate.jsx:121-127 | The composed address begins with the first kept field and ends with the last one, so there is no separator at either end. |
| `AddCoordinate.ComposeAddressSegments` | app/add_coordinate.jsx:121-127 | Splitting the address at ',' and trimming gives exactly the kept fields, in the order name, street, city, region, postal code, when no field holds a comma or outer blanks. So there is no empty segment. |
| `AddCoordinate.AddressParam` | app/add_coordinate.jsx:117-133 | No selection, or a selection with no address text, gives 'No Address Selected'. A non-empty composed address is passed through unchanged. The parameter is never empty. |
| `AddCoordinate.SubmitParams` | app/add_coordinate.jsx:117-137 | The pushed address is never empty. It is 'No Address Selected' when nothing is selected or the selected place has no address text; otherwise it is that place's composed address. Latitude and longitude are the current coordinate. |
| `AddCoordinate.PlaceTitle` | app/add_coordinate.jsx:146 | The list title is the place's name, or `street + ", " + city` (null printed as "null") when the name is empty. It is never empty. |
| `AddCoordinate.AddCoordinateScreen.ConfirmEnabled` | app/add_coordinate.jsx:212-223 | Its definition is the rule that confirm is enabled exactly while a place is selected. `SelectPlace` establishes it, and `PressConfirm` acts only when it holds. |
| `AddCoordinate.AddCoordinateScreen.SelectPlace` | app/add_coordinate.jsx:140-144 | Tapping a listed place makes it the selection and enables confirm. |
| `AddCoordinate.AddCoordinateScreen.PressConfirm` | app/add_coordinate.jsx:216-226 | While no place is selected the press does nothing. Otherwise one push to the register-location screen with the submit parameters. |
| `LocationRecords.StatusColor` | app/view_location.jsx:88-97 | 'approved' gives green, 'pending' orange and 'rejected' red, each if and only if. Any other status gets no style. The switch at app/add_location.jsx:102-111 is identical, so one function models both. |
| `Session.HasId` | app/view_location.jsx:54 | Its definition is the `if (user.id)` truthiness test: the id is present and non-zero. It is the same test at app/add_location.jsx:63. The two screens' `Mount` methods fetch exactly when it holds. |
| `ViewLocation.ViewLocationScreen.constructor` | app/view_location.jsx:14-17 | Empty query and list, no user, and `loading` already true. |
| `ViewLocation.AfterFetch` | app/view_location.jsx:32-36 | An ok reply replaces the list with `data.data`. Any other outcome keeps it. |
| `ViewLocation.FetchAlerts` | app/view_location.jsx:32-40 | No alert if and only if the reply is ok. A non-ok reply alerts `data.message`, or 'Failed to fetch locations' when that is empty. An exception alerts 'An error occurred while fetching locations'. |
| `ViewLocation.ViewLocationScreen.FetchLocations` | app/view_location.jsx:20-43 | The request is sent for the user id, the list and alerts follow the reply as above, and `loading` is false afterwards in every case. |
| `ViewLocation.ViewLocationScreen.Mount` | app/view_location.jsx:45-64 | A stored user becomes `userData`. The fetch runs only when that user has a truthy id. Otherwise nothing is requested, and the spinner stays on. |
| `ViewLocation.ViewLocationScreen.HandleClear` | app/view_location.jsx:66-68 | The query becomes '', and the shown list is then the whole list. |
| `ViewLocation.ViewLocationScreen.SetSearchQuery` | app/view_location.jsx:104-110 | Typing replaces the query. |
| `ViewLocation.Matches` | app/view_location.jsx:70-72 | Its definition is the filter test: the lower-cased address includes the lower-cased query. `FilteredIgnoresQueryCase` and `FilteredEmptyQuery` state its properties. |
| `ViewLocation.Filtered` | app/view_location.jsx:70-72 | `locations.filter(...)`: the result is never longer than the list, and every kept location matches the query. `FilteredCounts`, `FilteredMembers`, `FilteredIsSubsequence` and `FilteredIdempotent` state the rest: exactly the matching occurrences, in order. |
| `ViewLocation.FilteredCounts` | app/view_location.jsx:70-72 | Each location appears in the filtered list as often as in the list if its lower-cased address includes the lower-cased query, and not at all otherwise. |
| `ViewLocation.FilteredMembers` | app/view_location.jsx:70-72 | A location is shown if and only if it is stored and matches the query. |
| `ViewLocation.FilteredIsSubsequence` | app/view_location.jsx:70-72 | The filtered list is a subsequence of the list: the original order is kept. |
| `ViewLocation.FilteredEmptyQuery` | app/view_location.jsx:70-72 | An empty query keeps every location. |
| `ViewLocation.FilteredIdempotent` | app/view_location.jsx:70-72 | Filtering the filtered list again with the same query returns the same list. |
| `ViewLocation.FilteredIgnoresQueryCase` | app/view_location.jsx:70-72 | Lower-casing the query first changes nothing. |
| `ViewLocation.ShownPanel` | app/view_location.jsx:112-121 | The spinner while loading, otherwise the filtered list. |
| `AddLocation.AddLocationScreen.constructor` | app/add_location.jsx:20-22 | No locations, not loading, no user. |
| `AddLocation.AfterFetch` | app/add_location.jsx:38-44 | Only an ok reply with a non-empty `data.data` replaces the list. Every other reply keeps it, so a non-empty list never becomes empty. |
| `AddLocation.FetchAlerts` | app/add_location.jsx:38-47 | An ok but empty reply alerts 'No locations found for this user.'. A non-ok reply shows nothing. An exception alerts 'An error occurred while fetching locations'. |
| `AddLocation.AddLocationScreen.FetchLocations` | app/add_location.jsx:24-51 | One request for the user id. The list and alerts follow the reply, and `loading` is false afterwards in every case. |
| `AddLocation.AddLocationScreen.Mount` | app/add_location.jsx:54-73 | The fetch runs only for a stored user whose id is truthy. Otherwise nothing is requested or changed beyond `userData`. |
| `AddLocation.ShownPanel` | app/add_location.jsx:129-141 | The spinner if and only if loading. Otherwise the list if and only if it is non-empty, else the 'No registered locations available.' text. |
| `AddLocation.ShownListStays` | app/add_location.jsx:38-43 | Once the list is shown, no later reply turns it into the empty text. |
| `Signup.Validate` | app/signup.jsx:55-64 | The checks fail with 'missing field' if and only if one of the five fields is empty. They fail with 'mismatch' if and only if all are filled and the passwords differ. The empty-field check takes precedence. |
| `Signup.CheckAlert` | app/signup.jsx:56-63 | The alert text of each refused check. |
| `Signup.LoginEffects` | app/signup.jsx:40-52 | Status 200 goes home, and only status 200 does. Any other status alerts `result.message`, or 'Invalid email or password' when that is empty. An exception alerts 'Something went wrong while logging in.'. |
| `Signup.SignupScreen.constructor` | app/signup.jsx:18-23 | Empty refs, not loading, nothing stored or sent. |
| `Signup.SignupScreen.SetField` | app/signup.jsx:116-143 | Typing into one input overwrites that ref only. |
| `Signup.SignupScreen.Submit` | app/signup.jsx:55-81 | A refused check alerts its message, sends nothing and keeps `loading` off. Otherwise `loading` comes on and the register body carries name, email, password and phoneno from the fields. Only checked bodies are ever posted. |
| `Signup.SignupScreen.OnRegisterReply` | app/signup.jsx:83-97 | An ok reply alerts the server's message and calls login with the email as its name argument, while `loading` stays on. A non-ok reply alerts 'Signup Error' with the message. An exception alerts a generic text. In both failure cases `loading` goes off. |
| `Signup.SignupScreen.OnLoginReply` | app/signup.jsx:25-53 | Status 200 stores the token and the user, then goes home. Otherwise the alerts above, and nothing is stored. `loading` is off afterwards. |

## Left out

- Rendering, styles, layout, icons and the map and camera widgets. Presentation only.
- `app/home.jsx`, `app/login.jsx`, `app/welcome.jsx`, `app/_layout.jsx` and `app/app.js` are not part of this model. They hold navigation and storage plumbing. `app/login.jsx` shares only the status-200 versus `result.message || 'Invalid email or password'` rule of `Signup.LoginEffects`; its exception text differs.
- Floating point: `parseFloat` and `toFixed(6)` on coordinates, and `toFixed(2)` on the rotation progress. Coordinates are `real` or opaque strings, and the rotation is summed over `real`.
- `toLowerCase` is modelled for ASCII letters only. Unicode case folding is not modelled.
- Async interleavings are not modelled. Examples: two reverse-geocode calls racing, or a second verification callback while one is in flight. Each awaited reply is one atomic step. The gyroscope update interval is a sensor setting.
- Map animation (`animateToRegion`, `handleCenterToCurrentLocation`). It only moves the map view.
- `handleRecaptchaError` and `onExpire` only write to the console. Console logging is not modelled anywhere.
- `RegisterLocation.SubmitLocationEffects`: a missing user (the `userData.id` dereference at app/register_location.jsx:143) and a coordinate text without a comma (`longitude.toFixed` on undefined) both throw before the request. The rejected promise is never caught, so both are modelled as "no request and no alert". The crash itself is not modelled.
- The posted form carries the video URI only. The fixed MIME type and file name of the media part are not modelled.
- `ViewLocation.AfterFetch`: in the source, an ok reply without a `data` field leaves `locations` undefined, and the next render throws. The model reads a missing field as the empty list.
- `Signup.SignupScreen.OnLoginReply`: a failing `AsyncStorage.setItem` after a 200 reply is not modelled. The source would alert the catch message instead of navigating. Storage writes are taken to succeed.
- The add-location screen's modal, image picker and `photoUri`. Nothing in the file opens the modal. It is unreachable UI state.
