# e-ride core, modelled in Dafny

This project models the core of the e-ride backend, a Django ride-hailing service. It covers:

- the location column, `LocationField`, which stores a point as JSON text;
- the location mixin, `LocationMixin`, which renders points as EWKT text, measures distances and finds the nearest rows of a table;
- the `Ride` model: its distance and price computations, and the request → accept → start → complete/cancel lifecycle with the driver's availability;
- the ride serializer: the location field and ride creation;
- the ride and account permission classes;
- the e-mail verification token (`UrlSign`);
- the user manager's creation checks.

Python values the code inspects dynamically are a `Py.Value` datatype. `hasattr` is an `Attr` (missing or present). Exceptions are `Py.Error` results. The code outside this repository that the core calls is gathered in a `Py.Host` record of total functions, passed as a parameter:

- `json.loads` / `json.dumps`;
- `float()` on text, and float rendering;
- PostGIS `ST_Distance` in metres;
- UTF-8 encoding and decoding;
- `normalize_email`;
- password hashing.

Where a proof needs a law about one of these functions, the lemma takes that law as a precondition (`JsonRoundTrips`, `Utf8RoundTrips`, `ShowsCleanly`). Base64url itself (section 5 of RFC 4648, without the `=` padding of section 3.2) is written out, and its round trip is proved.

An SQL `ORDER BY distance` may order ties any way. `LocationMixin.IsNearestAnswer` states what any correct answer is: sorted, the right length, drawn from the eligible rows, and no eligible row nearer than a returned one. `LocationMixin.NearestQuery` computes one such answer, with a stable insertion sort.

Modules (one per file):

- `Wrappers`, `Py` and `Strings`: shared definitions.
- `Base64Url`.
- `LocationField` (base/fields.py).
- `LocationMixin` (base/mixins.py).
- `Rides` (apps/Rides/models.py).
- `RideSerializers`.
- `RidePermissions`.
- `AccountPermissions`.
- `UrlSign` (base/utils.py).
- `UserManager` (base/managers.py).

## Model

| member | source | states |
|---|---|---|
| Py.Float | e_ride/base/fields.py:50 | `float(v)`: numbers and booleans convert; text goes through the float parser, and ValueError when it refuses; any other value is TypeError |
| LocationField.FloatPair | e_ride/base/fields.py:49-50 | `(float(a), float(b))`: succeeds exactly when both components convert (numbers, booleans, numeric text), giving the two converted values in order; otherwise it raises the first failing `float()`'s ValueError or TypeError |
| LocationField.CommaPair | e_ride/base/fields.py:61-62 | `map(float, value.split(','))` unpacked into two: succeeds exactly when there are two comma-separated parts and the float parser accepts both, giving them in order; any failure is ValueError |
| LocationField.CatchValueError | e_ride/base/fields.py:63-64 | the `except (JSONDecodeError, ValueError)` clause: ValueError becomes ValidationError, every other outcome passes through unchanged |
| LocationField.ToPython | e_ride/base/fields.py:44-67 | None maps to None and nothing else does; a 2-list/2-tuple is exactly `FloatPair` of its items, so a component `float()` refuses escapes as ValueError or TypeError, not ValidationError; a dict with lat and lon is exactly `FloatPair` of (lat, lon); decoded JSON text goes through `ParsedToPair` with ValueError turned into ValidationError; a non-text value of any other shape, or text that json.loads refuses, is ValidationError |
| LocationField.ParsedToPair | e_ride/base/fields.py:55-62 | a decoded lat/lon object is `FloatPair` of (lat, lon), a decoded 2-list is `FloatPair` of its items, and anything else falls back to `CommaPair` of the text; failures are ValueError or TypeError |
| LocationField.ToPythonJson | e_ride/base/fields.py:54-58 | text holding a JSON lat/lon object or a 2-element JSON list converts to that point |
| LocationField.BareCommaTextRejected | e_ride/base/fields.py:52-64 | `"lat,lon"` text that is not JSON is refused with ValidationError, because the comma fallback is inside the `try` whose `json.loads` has already failed |
| LocationField.GetPrepValue | e_ride/base/fields.py:69-74 | None is stored as NULL; otherwise the result is the JSON dump of `{'lat', 'lon'}` of `to_python(value)`, and it fails exactly when `to_python` fails, with the same exception |
| LocationField.PrepRoundTrip | e_ride/base/fields.py:69-74 | a point is stored as the JSON lat/lon object, and `to_python` of that text gives the point back |
| LocationField.PrepIdempotent | e_ride/base/fields.py:69-74 | preparing already-prepared text gives the same text |
| LocationField.FromDbValue | e_ride/base/fields.py:23-42 | NULL reads as None; text that decodes to anything but a list is returned as the decoded value, unconverted; text that is not JSON fails with ValueError exactly when it is not two comma-separated floats, and otherwise reads as their tuple; the only failure is ValueError; any other shape that is not a lat/lon dict or a 2-list passes through unchanged |
| LocationField.FromDbValueCommaText | e_ride/base/fields.py:32-35 | non-JSON `"a,b"` text whose parts parse as numbers reads as the tuple (a, b) |
| LocationField.FromDbValueJsonList | e_ride/base/fields.py:30-31 | text holding a JSON list reads as the tuple of its items |
| LocationField.FromDbValueStructured | e_ride/base/fields.py:36-41 | a lat/lon dict reads as (lat, lon); a 2-list reads as the tuple of its items |
| LocationField.FromDbValueKeepsStoredObject | e_ride/base/fields.py:23-31 | the JSON object that `get_prep_value` stores reads back as that object, not as the (lat, lon) tuple the docstring promises |
| LocationField.FromDbValueIntended | e_ride/base/fields.py:23-42 | the corrected reader fails exactly when the original does, and agrees with it on every value that does not decode to a dict |
| LocationField.FromDbValueIntendedRoundTrip | e_ride/base/fields.py:24 | with the correction, a stored point reads back as its (lat, lon) tuple |
| LocationMixin.PrepValue | e_ride/base/mixins.py:5-8 | a missing location cannot be unpacked (TypeError); a present one always renders, with no exception |
| LocationMixin.PrepValueRoundTrip | e_ride/base/mixins.py:5-8 | the text is exactly `SRID=4326;POINT(<lon> <lat>)`, longitude first: parsing it back gives (lat, lon) |
| LocationMixin.ParseEwkt | e_ride/base/mixins.py:8 | anything it accepts starts with `SRID=4326;POINT(` and ends with `)` |
| LocationMixin.Distance | e_ride/base/mixins.py:10-20 | the distance is defined exactly when both points are present, and it is the PostGIS distance in metres divided by 1000 (km); otherwise TypeError |
| LocationMixin.DistanceTo | e_ride/base/mixins.py:35-39 | AttributeError when the other object has no `location`; otherwise exactly `distance(other.location)` |
| LocationMixin.Candidates | e_ride/base/mixins.py:59-66 | each candidate is a table row with a non-NULL location that is not excluded, paired with its distance to the origin |
| LocationMixin.CandidatesComplete | e_ride/base/mixins.py:65-66 | every located, non-excluded row is a candidate |
| LocationMixin.NoExclusion | e_ride/base/mixins.py:55-57 | `exclude_ids=None` and `exclude_ids=[]` select the same rows, and every located row is among them |
| LocationMixin.OrderByDistanceSorted | e_ride/base/mixins.py:67 | ordering by distance gives a sorted permutation of the candidates |
| LocationMixin.Insert | e_ride/base/mixins.py:67 | one step of the ordering: the list grows by one and holds the inserted row (its order and contents are stated by InsertSorted and InsertMultiset) |
| LocationMixin.OrderByDistance | e_ride/base/mixins.py:67 | `ORDER BY distance` keeps the number of rows (sortedness and permutation are stated by OrderByDistanceSorted) |
| LocationMixin.InsertSorted | e_ride/base/mixins.py:67 | inserting into a sorted list keeps it sorted |
| LocationMixin.InsertMultiset | e_ride/base/mixins.py:67 | inserting adds exactly the one element |
| LocationMixin.Limit | e_ride/base/mixins.py:68 | `LIMIT n` keeps a prefix of length min(n, rows) |
| LocationMixin.SortedSplit | e_ride/base/mixins.py:67-68 | in a sorted list, every row before the cut is no farther than any row after it |
| LocationMixin.LimitIsNearestAnswer | e_ride/base/mixins.py:67-68 | the first `limit` rows of a sorted permutation are a correct nearest answer |
| LocationMixin.NearestQuery | e_ride/base/mixins.py:51-70 | a missing origin is TypeError (rendering None), a negative LIMIT is rejected by the database, and nothing else fails |
| LocationMixin.NearestQueryIsAnswer | e_ride/base/mixins.py:59-70 | with an origin and a non-negative limit the query succeeds: its rows are sorted by distance, there are min(limit, candidates) of them, they are drawn from the candidates, and no omitted candidate is nearer |
| LocationMixin.NearestQueryRows | e_ride/base/mixins.py:59-70 | every returned row has a location and is not excluded |
| LocationMixin.Get | e_ride/base/mixins.py:75 | `objects.get(id=…)` finds an instance exactly when some row has that id |
| LocationMixin.GetRow | e_ride/base/mixins.py:75 | with unique ids, looking up a row's id gives that row's instance |
| LocationMixin.FindNearestInstances | e_ride/base/mixins.py:41-78 | a missing origin is TypeError; otherwise the result is the query's rows in order, each id replaced by its instance and paired with its distance; at most `limit` pairs, distances non-decreasing |
| Rides.Apply | e_ride/tests/test_ride_lifecycle.py:89-111 | each asserted transition leaves a non-terminal status for a different one; a terminal status leaves the driver ONLINE; driver availability stays coupled to ride status |
| Rides.RunKeepsCoupling | e_ride/tests/test_ride_lifecycle.py:89-111 | every run of transitions keeps the driver ENGAGED exactly while the ride is ACCEPTED or STARTED |
| Rides.TerminalIsFinal | e_ride/apps/Rides/models.py:7-13 | no transition leaves COMPLETED or CANCELLED |
| Rides.FullLifecycle | e_ride/tests/test_ride_lifecycle.py:89-111 | accept gives ACCEPTED with the driver ENGAGED, start gives STARTED, complete gives COMPLETED with the driver ONLINE |
| Rides.CancelAccepted | e_ride/tests/test_ride_lifecycle.py:130-145 | cancelling an accepted ride gives CANCELLED with the driver ONLINE |
| Rides.ActiveIffNotTerminal | e_ride/apps/Rides/views.py:61-64 | the active statuses (REQUESTED, ACCEPTED, STARTED) are exactly the non-terminal ones |
| Rides.ActiveRides | e_ride/apps/Rides/views.py:61-64 | a ride is listed exactly when it belongs to the client and is active |
| Rides.PositivePrice | e_ride/apps/Rides/models.py:69-74 | a positive distance at a positive rate sets a positive price |
| Rides.Driver.constructor | e_ride/apps/Accounts/models.py:13-16 | a driver has a user, a location, an availability (ONLINE, OFFLINE or ENGAGED) and a rate |
| Rides.Client.constructor | e_ride/apps/Accounts/models.py:32-33 | a client has a user and a location |
| Rides.Ride.constructor | e_ride/apps/Rides/models.py:15-20 | a new ride is REQUESTED with price 0 and no driver or client |
| Rides.Ride.RideDistance | e_ride/apps/Rides/models.py:22-32 | defined exactly when both pickup and dropoff are set, and then it is the pickup-to-dropoff distance in km |
| Rides.Ride.DriverToPickupDistance | e_ride/apps/Rides/models.py:34-43 | AttributeError exactly when there is no driver; otherwise defined exactly when the driver's location and the pickup are set, as the distance in km between them |
| Rides.Ride.ClientToDriverDistance | e_ride/apps/Rides/models.py:45-54 | AttributeError exactly when there is no client, or the client is located and there is no driver; otherwise defined exactly when both are located, as the distance in km between them |
| Rides.Ride.RideDuration | e_ride/apps/Rides/models.py:56-66 | always None |
| Rides.Ride.CalculatePrice | e_ride/apps/Rides/models.py:69-74 | AttributeError, with the price unchanged, exactly when the distance is truthy and there is no driver; otherwise the price becomes distance × rate when both are truthy, and stays as it was when either is not |
| Rides.Ride.DoAccept | e_ride/tests/test_ride_lifecycle.py:89-96 | from REQUESTED, the ride becomes ACCEPTED and its driver ENGAGED |
| Rides.Ride.DoStart | e_ride/tests/test_ride_lifecycle.py:98-102 | from ACCEPTED, the ride becomes STARTED |
| Rides.Ride.DoComplete | e_ride/tests/test_ride_lifecycle.py:104-111 | from STARTED, the ride becomes COMPLETED and its driver ONLINE |
| Rides.Ride.DoCancel | e_ride/tests/test_ride_lifecycle.py:137-145 | from ACCEPTED, the ride becomes CANCELLED and its driver ONLINE |
| Py.Elements | e_ride/apps/Rides/serializers.py:20 | iterating a list or tuple yields its items, a string yields its characters, and any other value is not iterable |
| RideSerializers.FloatAt | e_ride/apps/Rides/serializers.py:17-18 | `float(data[key])` succeeds exactly when the key is present and its value converts |
| RideSerializers.ToRepresentation | e_ride/apps/Rides/serializers.py:7-12 | the representation is a dict with exactly the keys lon and lat, and `to_internal_value` reads it back as the same pair |
| RideSerializers.ToInternalValue | e_ride/apps/Rides/serializers.py:14-23 | a dict with lon and lat whose values `float()` converts gives (float(lon), float(lat)); an iterable of exactly two convertible items gives them converted in order; every failure is ValidationError: a dict missing lon or lat, a list or tuple of the wrong length, a non-iterable; a success is always one of these two readings |
| RideSerializers.RepresentationRoundTrip | e_ride/apps/Rides/serializers.py:7-23 | reading back a represented location gives the same pair |
| RideSerializers.InternalValueOrder | e_ride/apps/Rides/serializers.py:16-23 | a list or tuple is read as (lon, lat) in its own order; a dict is read as (lon, lat) by key |
| RideSerializers.OppositeComponentOrder | e_ride/apps/Rides/serializers.py:17-23 | the same lat/lon dict becomes (lon, lat) in the serializer but (lat, lon) in the model field |
| RideSerializers.NonNumericRefused | e_ride/apps/Rides/serializers.py:15-22 | a component that is not a number or numeric text is refused with ValidationError |
| RideSerializers.ClientOf | e_ride/apps/Rides/serializers.py:49 | the client profile found belongs to the requesting user; none is found only when no profile does |
| RideSerializers.Create | e_ride/apps/Rides/serializers.py:46-55 | no driver is KeyError; no client profile is DoesNotExist; with both, creation fails exactly when the driver is null and the pickup-to-dropoff distance is truthy, and then with the AttributeError of `calculate_price`; otherwise a new REQUESTED ride with the given locations, driver and the requester's client, priced from its distance and the driver's rate |
| RidePermissions.ParticipantIsDriverOrClient | e_ride/apps/Rides/permissions.py:11-15 | a participant is exactly the ride's driver or its client |
| RidePermissions.IsRideDriver | e_ride/apps/Rides/permissions.py:3-5 | holds exactly when the object has a `driver` attribute holding the requester's profile |
| RidePermissions.IsRideClient | e_ride/apps/Rides/permissions.py:7-9 | holds exactly when the object has a `client` attribute holding the requester's profile |
| RidePermissions.IsRideParticipant | e_ride/apps/Rides/permissions.py:11-15 | holds exactly when the `driver` or the `client` attribute holds the requester's profile |
| RidePermissions.OrphanDeniesEveryone | e_ride/apps/Rides/permissions.py:3-15 | a ride with neither driver nor client admits nobody under any of the three permissions |
| RidePermissions.TargetOf | e_ride/apps/Rides/permissions.py:5 | a ride always has both attributes; each is set exactly when the ride has that participant |
| RidePermissions.RideParticipants | e_ride/apps/Rides/permissions.py:3-15 | on a ride, each permission holds exactly when that participant exists and belongs to the requesting user |
| AccountPermissions.NoRoleNoAccess | e_ride/apps/Accounts/permissions.py:5-38 | an anonymous user or a user without a role passes none of IsDriver, IsClient, IsAdmin |
| AccountPermissions.IsDriver | e_ride/apps/Accounts/permissions.py:5-14 | passes exactly an authenticated user whose role is DRIVER |
| AccountPermissions.IsClient | e_ride/apps/Accounts/permissions.py:17-26 | passes exactly an authenticated user whose role is CLIENT |
| AccountPermissions.IsAdmin | e_ride/apps/Accounts/permissions.py:29-38 | passes exactly an authenticated user whose role is ADMIN or SUPERADMIN |
| AccountPermissions.RolesExclusive | e_ride/apps/Accounts/permissions.py:5-38 | no user passes two of IsDriver, IsClient, IsAdmin |
| AccountPermissions.IsOwner | e_ride/apps/Accounts/permissions.py:41-52 | `obj.user` decides when present; otherwise `obj.profile.user` decides, and AttributeError when the profile is None; no attribute denies; owning implies authenticated |
| AccountPermissions.SameUserChecks | e_ride/apps/Accounts/permissions.py:55-67 | both checks pass exactly when the user is authenticated and the object's pk is the user's pk; an object without pk is refused |
| AccountPermissions.SameUserAllowed | e_ride/apps/Accounts/permissions.py:59-61 | passes exactly the users that have a pk, i.e. the authenticated ones |
| AccountPermissions.SameUserObjectAllowed | e_ride/apps/Accounts/permissions.py:63-67 | an object without `pk` is refused; for a stored user it passes exactly when the object's pk is that user's |
| AccountPermissions.ObjectCheckAloneAdmitsAnonymous | e_ride/apps/Accounts/permissions.py:63-66 | the object check alone admits the anonymous user on an object whose pk is None; the view check refuses that user |
| Base64Url.Index | e_ride/base/utils.py:12-14 | an alphabet character's index is the sextet that the RFC 4648 base64url alphabet maps to it |
| Base64Url.Decode | e_ride/base/utils.py:12-14 | decoding succeeds exactly when every character is in the base64url alphabet and the length is not 1 modulo 4 |
| Base64Url.IndexSymbol | e_ride/base/utils.py:8-14 | every sextet's symbol indexes back to it |
| Base64Url.Encode | e_ride/base/utils.py:8-10 | unpadded output never has length 1 mod 4 |
| Base64Url.EncodeLength | e_ride/base/utils.py:8-10 | n bytes encode to ⌈4n/3⌉ characters |
| Base64Url.Join4Split3 | e_ride/base/utils.py:8-14 | four sextets rejoin the three bytes they were cut from |
| Base64Url.DecodeEncode | e_ride/base/utils.py:8-14 | decoding an encoding gives the bytes back |
| UrlSign.TimeToStr | e_ride/base/utils.py:16-17 | the rendering is 19 characters with no `!` |
| UrlSign.StrToTime | e_ride/base/utils.py:19-20 | a parse yields a valid datetime with zero microseconds that renders back as exactly the text parsed, so text in the layout naming an impossible date or time is refused; every failure is ValueError |
| UrlSign.LayoutRendered | e_ride/base/utils.py:16-20 | the fields read from text in the `%Y-%m-%d %H:%M:%S` layout render back as that same text |
| UrlSign.MonthThirteenRejected | e_ride/base/utils.py:19-20 | `2024-13-01 00:00:00` is refused with ValueError |
| UrlSign.StrToTimeRoundTrip | e_ride/base/utils.py:16-20 | parsing a rendered time gives it back, without its microseconds |
| UrlSign.FourDigits | e_ride/base/utils.py:16-20 | a four-digit year renders and reads back unchanged |
| UrlSign.UrlsafeDecode | e_ride/base/utils.py:12-14 | text that is not base64url is ValueError; otherwise the result is the UTF-8 decoding of the bytes, and UnicodeDecodeError exactly when they are not UTF-8 |
| UrlSign.UrlsafeEncode | e_ride/base/utils.py:8-10 | the token base64url-decodes to the UTF-8 bytes of the text, and `urlsafe_decode` of it gives the text back |
| UrlSign.UrlDecode | e_ride/base/utils.py:28-31 | a token that does not decode fails with the same error; a decoded text gives a name exactly when it has one `!`, and ValueError otherwise; the name returned has no `!` |
| UrlSign.UrlEncode | e_ride/base/utils.py:22-26 | the token base64url-decodes to the UTF-8 bytes of `username!time_to_str(now)`, and `urlsafe_decode` gives that text back; for a username without `!` `url_decode` gives the username, and for one with `!` it fails with ValueError |
| UrlSign.UrlTokenTime | e_ride/base/utils.py:22-30 | for a username without `!`, the decoded token splits into the username and a time text that `str_to_time` reads back as the clock reading, without microseconds |
| UrlSign.UrlDecodePrefix | e_ride/base/utils.py:28-31 | the name returned is the decoded text up to its `!` |
| UrlSign.UrlRoundTrip | e_ride/base/utils.py:22-31 | the encoding of `username!<time>` decodes to the username when the username has no `!` |
| UrlSign.UrlRoundTripNeedsNoBang | e_ride/base/utils.py:22-31 | the encoding of `username!<time>` fails to decode with ValueError when the username contains `!` |
| Strings.Split | e_ride/base/utils.py:30 | `str.split(sep)` always yields at least one part |
| Strings.JoinSplit | e_ride/base/utils.py:30 | joining the parts with the separator gives the text back |
| Strings.SplitCount | e_ride/base/utils.py:30 | there is one more part than there are separators |
| Strings.SplitPair | e_ride/base/utils.py:30 | `a + sep + b` with no separator in a or b splits into exactly [a, b] |
| UserManager.User.constructor | e_ride/base/managers.py:8 | the model is built with the email, username and remaining keywords, unsaved |
| UserManager.User.SetPassword | e_ride/base/managers.py:9 | the stored password is the hash of the raw one |
| UserManager.User.Save | e_ride/base/managers.py:10 | the user row is written, and nothing else about the user changes |
| UserManager.SetDefault | e_ride/base/managers.py:21-23 | `setdefault` adds the key and never overwrites a value the caller supplied |
| UserManager.DefaultsKeepCallerValues | e_ride/base/managers.py:21-30 | defaulting adds exactly the three flags, keeps every caller value and gives each missing flag the default |
| UserManager.UserRefusal | e_ride/base/managers.py:14-18 | refused exactly when the username or email is falsy; a falsy username is reported before the email is looked at |
| UserManager.SuperuserRefusal | e_ride/base/managers.py:32-36 | passes exactly when `is_superuser` and `is_staff` are both the value True |
| UserManager.SuperuserFlags | e_ride/base/managers.py:28-29 | after defaulting, each privilege flag is the caller's value, or True when none was given |
| UserManager.SuperuserRefusedIff | e_ride/base/managers.py:28-36 | a superuser is refused exactly when the caller passed a privilege flag other than True |
| UserManager.ActiveFlagUnchecked | e_ride/base/managers.py:30-36 | the value passed for `is_active` never changes the outcome of the checks |
| UserManager.Create | e_ride/base/managers.py:7-11 | a new saved user with the email, username, remaining keywords and the hashed password |
| UserManager.CreateUser | e_ride/base/managers.py:13-25 | a refusal is ValueError; otherwise the user is created with the normalized email and the flags defaulted to False |
| UserManager.CreateSuperuser | e_ride/base/managers.py:27-40 | a refusal of the defaulted flags is ValueError; otherwise the user is created with the normalized email (`''` when none) and the flags defaulted to True |

## Left out

- The PostGIS distance (`ST_Distance` on geographies) is the abstract `Host.geoMetres`. No metric property is assumed. The `haversine_distance` method some tests call does not exist in the mixin and is not modelled.
- Floating point is modelled as `real`. Rounding in `float()`, in `/1000` and in distance × rate is not captured.
- The price column's `Decimal` rounding to two places is not modelled. Neither is the `'<d> miles'` label that `NearestInstanceSerializer` adds.
- The nearest-driver tests expect three things that `find_nearest_instances` does not do: an ONLINE-only filter, a maximum distance, and `[]` for a missing origin. The model follows the code: it has no such filter, and a missing origin raises TypeError.
- LocationMixin.FindNearestInstances: each id is assumed to be found by `objects.get`, since a returned row comes from the same table. `DoesNotExist` from a concurrent delete is not modelled.
- LocationMixin.Candidates: excluded ids are compared as strings, as `str(id)` makes them, and the table name is not modelled.
- Ride lifecycle: only the transitions the lifecycle tests assert are modelled. These are accept from REQUESTED, start from ACCEPTED, complete from STARTED and cancel from ACCEPTED. The views that perform them are not part of this model, so no rejection rule and no concurrent accept is modelled. Cancelling a REQUESTED ride is not asserted and is left out.
- Rides.Ride.DoAccept, DoStart, DoComplete, DoCancel: these require their from-state instead of returning an error, because the code that would refuse a wrong state is not part of this model.
- Driver and client profiles: the schema in e_ride/apps/Accounts/models.py does not declare `Driver.location`, `Driver.price_per_km` or `Client.location`. `Rides/models.py` and the tests use all three, so the model gives the profiles these fields. The schema otherwise (Cloudinary images, UUIDs, timestamps, `get_full_name`) is left out.
- Rides.Ride.RideDistance, DriverToPickupDistance, ClientToDriverDistance and LocationMixin.PrepValue cover in-memory (lat, lon) tuples only. A ride or profile read back from a text column holds the lat/lon dict that `from_db_value` returns (see Findings). `get_prep_value` then unpacks its two keys and renders `SRID=4326;POINT(lon lat)`, which the database rejects. The model's locations are pairs and cannot represent that state.
- RideSerializers.ToRepresentation takes a pair. The serializer framework never passes None to it, because it writes None for a null attribute without calling the field.
- Views, URL routing, the account serializers (JWT, `authenticate`), e-mail sending and signals are outside the core.
- `json.loads`/`json.dumps`, `float()` text parsing, float rendering, UTF-8, `normalize_email` and password hashing are abstract Host functions. The only laws assumed are stated as preconditions of the lemmas that need them.
- LocationField.GetPrepValue: `lat, lon = self.to_python(value)` also accepts a 2-key dict by unpacking its keys. That case cannot arise, because `to_python` returns tuples, and it is not modelled.
- UrlSign.UrlsafeDecode: decoding is strict over the base64url alphabet, so the model rejects `+`, `/` and `=`. Django's decoder accepts all three. It first translates `-` and `_` to `+` and `/`, then decodes in Python's non-strict base64 mode. In that mode `+` and `/` decode as the sextets 62 and 63, and `=` is read as padding. Only characters outside the standard alphabet are dropped, and anything after a complete padding run is ignored.
- UrlSign.StrToTime: it accepts only the exact layout with every field at full width and ASCII digits. `strptime` accepts more: one-digit months, days, hours, minutes and seconds, a day padded with a space, any run of whitespace where the format has its space, and non-ASCII decimal digits. Its year must have exactly four digits, as here. Rendering assumes four-digit zero-padded years (`%Y` pads years below 1000 on most platforms but not all).
- UserManager.Create, CreateUser, CreateSuperuser: the keywords never hold `email`, `username` or `password`, because Python binds those to the named parameters and a repeat fails at the call. A keyword naming no model field raises TypeError in the model constructor. That is not modelled, because the field list lives in a schema that is not part of this model.
- UrlSign.UrlEncode: the clock is a parameter (`now`), not `datetime.now()`.

## Findings

| source | as written | input that shows it | evidently intended | confidence | as-written member | corrected member |
|---|---|---|---|---|---|---|
| e_ride/base/fields.py:30-31 | `from_db_value` returns the result of `json.loads` unchanged unless it is a list, so the JSON object `{"lat": …, "lon": …}` that `get_prep_value` stores reads back as a dict | a point stored on a text column, e.g. `'{"lat": 6.5, "lon": 3.4}'` | the docstring says stored values are read back as a `(lat, lon)` tuple; a decoded lat/lon dict should become `(lat, lon)` | not executed; medium (on PostgreSQL the `jsonb` column may already hand back a dict, which the dict branch converts) | LocationField.FromDbValueKeepsStoredObject | LocationField.FromDbValueIntendedRoundTrip |
