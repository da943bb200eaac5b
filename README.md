# SpatialCRUD core in Dafny

SpatialCRUD is two small Flask services over MongoDB. The region service stores US
states with polygon boundaries. The event service stores events located at a point.
This project models the two pieces that decide anything:

- `validate_polygon` in `polygon.py`. It accepts a state boundary only when the value
  is a list of exactly 16 entries. Each entry must be a pair of numbers with the
  longitude in [-180, 180] and the latitude in [-90, 90]. The first pair must equal
  the last. `serialize_object_id` from the same file is modelled as well.
- `create_event` in `events.py`, without Flask and MongoDB. It takes the request's JSON
  object and answers 400 (missing field or malformed location), 201 with the stored
  record (location as a GeoJSON Point), or 500 (any exception, with its text).

Files:

- `json.dfy` (module `Json`): Python values from a JSON body, and Python's `==` on them
  (`PyEq`). Under `==`, `True`, `1` and `1.0` are all equal.
- `documents.dfy` (module `Documents`): stored records. An entry is a JSON value, a
  `datetime.date`, a `datetime` or an ObjectId.
- `polygon.dfy` (module `Polygon`): `ValidatePolygon`, with the vertex count as a
  parameter `n`. `VertexCount` is 16; other revisions of the service use 8.
  `EveryPointPasses` mirrors the `for` loop. `IsValidBoundary` is the reference
  definition with quantifiers. `WithStringId` and the in-place
  `StateDocument`/`SerializeObjectId` model `serialize_object_id`.
- `events.dfy` (module `Events`): `HandleCreate`. The calls into `datetime.strptime`,
  `float()` and `insert_one` are fields of a `Runtime` value. Each returns its result
  or the text of the exception it raised. `CreateEvent` is the handler as written.

The closure test reads `coordinates[0]` and `coordinates[-1]`. Dafny checks that both
indices are in range when it admits `ValidatePolygon`, because the length test comes
first.

Behaviour a reader might not expect, which the model keeps:

- A malformed location might be expected to get the 400 'Invalid location format'.
  In the code, `in` on a str location is a substring test and on a list location a
  membership test. So a str or list that mentions both keys passes the test and then
  fails to be subscripted: a 500. A number, bool or null location makes `in` raise:
  also a 500.
- The code checks neither the type nor the range of an event's coordinates, nor the
  sign of its price.
- A valid event might be expected to get a 201. Against pymongo the handler as
  written cannot give one; see Findings.

## Model

| member | source | states |
|---|---|---|
| `Polygon.ValidatePolygon` | polygon.py:17-30 | `validate_polygon` with the vertex count as a parameter: the length test, then the loop, then the closure test on the first and last entries. Its contract: an accepted value is a list of `n` numeric pairs whose first and last pair agree in longitude and in latitude |
| `Polygon.EveryPointPasses` | polygon.py:20-26 | The `for` loop over the points, stopping at the first entry that is not a pair, not numeric or out of bounds. Its contract: when it runs to the end, every entry is a numeric pair |
| `Json.PyEq` | polygon.py:28 | Python's `==` used by the `!=` closure test: numbers by value whatever their type, lists element by element, dicts key by key. Its contract: it is reflexive, equal numbers have equal values, and equal lists have equal lengths |
| `Polygon.ValidatePolygonIff` | polygon.py:17-30 | The check accepts a value exactly when it is a list of `n` entries, every entry is a numeric pair within the inclusive bounds, and the first pair equals the last under Python `==` |
| `Polygon.EveryPointPassesIff` | polygon.py:20-26 | The loop over the points runs to the end without returning False exactly when every entry is an in-bounds numeric pair |
| `Polygon.RejectsWrongCount` | polygon.py:18-19 | A value that is not a list, or a list whose length is not `n`, is rejected |
| `Polygon.RejectsNonPair` | polygon.py:21-22 | A list with any entry that is not a two-element list is rejected |
| `Polygon.RejectsNonNumeric` | polygon.py:23-24 | A list with any pair holding a component that is not a bool, int or float is rejected |
| `Polygon.RejectsOutOfRange` | polygon.py:25-26 | A list with any pair whose longitude is outside [-180, 180] or whose latitude is outside [-90, 90] is rejected |
| `Polygon.RejectsOpenRing` | polygon.py:28-29 | A list of `n` entries whose first and last entries differ under Python `==` is rejected |
| `Polygon.ClosureComparesBothComponents` | polygon.py:28 | Two numeric pairs are equal exactly when both their longitudes and their latitudes are numerically equal |
| `Polygon.AcceptsRingOnTheBounds` | polygon.py:25-30 | For every `n`, a ring of `n` copies of a pair with longitude ±180 and latitude ±90 is accepted, so the bounds are inclusive |
| `Polygon.WithStringId` | polygon.py:12-14 | With `_id` present, only `_id` changes and it becomes `str(_id)`; the keys stay the same. Without `_id`, KeyError('_id') is raised |
| `Polygon.WithStringIdIdempotent` | polygon.py:12-14 | Serialising an already serialised record changes nothing, because `str` of a str is that str |
| `Polygon.SerializeObjectId` | polygon.py:12-14 | The dict is updated in place to `WithStringId` of its old contents and the same dict is returned; on KeyError it is left unchanged |
| `Events.HandleCreate` | events.py:15-48 | `create_event` with the date storage as a parameter: required keys, then the location test, then shaping, then the insert, then `_id`. Its contract: a 400 carries one of the two messages; a 201 comes from a payload with every key and a dict location, and its record has exactly the seven keys plus a plain `_id`; a store failure comes only after a record was shaped |
| `Events.CreateEvent` | events.py:15-48 | The handler as written. Its contract: a 201 record stores the date as a `datetime.date` |
| `Events.CreateEventStoringDatetime` | events.py:37 | The handler storing the parsed `datetime` instead. Its contract: a 201 record stores the date as a `datetime` |
| `Events.ShapeEvent` | events.py:30-41 | The `event` dict literal, evaluated in order. Its contract: it fails only by subscripting the location, by `strptime` or by `float()`; on success it has exactly the seven keys, no `_id`, both conversions succeeded, and name, artists and times are the payload's values |
| `Events.PointOf` | events.py:31-34 | The `location` entry. Its contract: it succeeds exactly for a dict location, giving `{type: 'Point', coordinates: [longitude, latitude]}`; a str or list location raises TypeError |
| `Events.Contains` | events.py:22-27 | Python's `in`: key lookup on a dict, substring on a str, membership on a list. Its contract: it raises TypeError exactly for other values, and on a dict it is key membership |
| `Events.HasCoordinates` | events.py:27 | The `all(...)` test on the location, which stops at the first missing key. Its contract: true exactly when both `in` tests are true; on a dict, exactly when both keys are present; it raises only the TypeError of `in` |
| `Events.Message` | events.py:47-48 | `str(e)` for the exception. Its contract: a foreign call's failure is reported with that call's own text; the TypeError from `in` starts "argument of type '" (CPython 3.11 wording) |
| `Events.MissingFieldsIff` | events.py:20-23 | The reply is 'Missing required fields' exactly when one of the seven required keys is absent, whatever the location holds |
| `Events.InvalidLocationIff` | events.py:26-28 | The reply is 'Invalid location format' exactly when all required keys are present and `in` finds the location lacks `longitude` or `latitude` |
| `Events.DictWithoutCoordinateRejected` | events.py:27-28 | A dict location without `longitude` or without `latitude` gets a 400 'Invalid location format' |
| `Events.NonDictLocationNeverCreated` | events.py:26-32 | A location that is not a dict gets either the 400 or a 500 from the TypeError raised by `in` or by subscripting; never a record |
| `Events.StrLocationNamingBothIsServerError` | events.py:26-32 | Every str location in which both `longitude` and `latitude` occur passes the substring test and then fails to be subscripted: a 500 with Python's TypeError text |
| `Events.ListLocationNamingBothIsServerError` | events.py:26-32 | Every list location holding the strings `longitude` and `latitude` passes the membership test and then fails to be subscripted: a 500 with Python's TypeError text |
| `Events.StringLocationIsServerError` | events.py:26-32 | One instance: the location "longitude,latitude" gets that 500 |
| `Events.BadDateIsServerError` | events.py:37-48 | A date that `strptime` rejects gives a 500 whose body is `{'error': <its message>}`, and the reply does not depend on the store |
| `Events.BadPriceIsServerError` | events.py:40-48 | A price that `float()` rejects, after a good date, gives a 500 with its message, and the reply does not depend on the store |
| `Events.CreatedIff` | events.py:20-46 | The reply is a 201 exactly when the payload is well formed and the store accepts the shaped record |
| `Events.CreatedLocationIsPoint` | events.py:30-34 | On a 201 the location was a dict, and the stored location is `{type: 'Point', coordinates: [longitude, latitude]}`, longitude first |
| `Events.CreatedRecordContents` | events.py:30-41 | On a 201 the record has exactly the seven keys plus `_id`, with extra payload keys dropped. Name, artists and times are copied verbatim. Date and price are what the conversions returned |
| `Events.CreatedIdAfterInsert` | events.py:43-46 | On a 201 the store was handed the record without `_id`, and `_id` is the hex string of the ObjectId it assigned |
| `Events.CreateEventNeverCreated` | events.py:37-43 | As written, against a store that refuses `datetime.date` values, the handler never answers 201 |
| `Events.CreateEventStoreRefusal` | events.py:37-48 | As written, against a store that refuses `datetime.date` values, a well-formed payload is shaped, the store refuses the record, and the reply is the 500 carrying the store's message |
| `Events.CreateEventStoringDatetimeCreated` | events.py:37-46 | Storing the parsed `datetime` instead, every well-formed payload gets a 201 from a store that refuses only `datetime.date` values |

## Findings

| source | as written | input that shows it | evidently intended | confidence | as-written member | corrected member |
|---|---|---|---|---|---|---|
| events.py:37 | The record stores `datetime.strptime(...).date()`, a `datetime.date`. pymongo's BSON encoder handles `datetime.datetime` only, so `insert_one` at line 43 raises InvalidDocument and the request gets a 500 | Any well-formed payload, e.g. location `{longitude: -122.4, latitude: 37.8}`, date `"2024-05-01"`, price `"10"`, plus the other required keys | Store a value BSON can encode, such as the `datetime` that `strptime` returns, so the event is inserted and a 201 returned | high (follows from pymongo's encoder; not executed) | `Events.CreateEventStoreRefusal` | `Events.CreateEventStoringDatetimeCreated` |

`Events.CreateEvent` is the handler as written. `Events.CreateEventStoringDatetime` is
the corrected handler. Every other `Events` lemma is stated for both ways of storing
the date.

## Left out

- Flask plumbing: the app, the route decorator, `request.get_json`, `jsonify` and
  `app.run`. The payload is taken as an already decoded JSON object. A body that is not
  a JSON object is not modelled.
- The MongoDB connection and collections. `insert_one` is the `Runtime.insert`
  parameter, so the id it assigns and its failures are inputs. That pymongo refuses
  `datetime.date` is stated as a hypothesis (`RefusesCalendarDates`), not modelled
  from the encoder.
- `datetime.strptime` and `float()` internals: they are `Runtime.parseDate` and
  `Runtime.toFloat`, partial functions returning the value or the exception text.
- Floating point: numbers are mathematical reals. NaN and ±Infinity are not modelled.
  Python's JSON parser accepts them. The range test would reject them as vertices,
  since NaN fails every comparison.
- How `jsonify` renders a 201 body: a `datetime.date` becomes an HTTP date string.
  The model returns the record itself.
- `insert_one` also writes an ObjectId `_id` into the dict it is given. Line 44 then
  overwrites that entry, so the model adds only the final string `_id`.
- Python's `str()` of a stored `_id` is the parameter `str` of `WithStringId`.
- Python's own TypeError texts (in `Message`) follow CPython 3.11; other versions word them
  differently.
- The near-point and containment queries and the GET and PUT handlers are not part
  of this model. Their code is not among the modelled files, and the spatial
  computation is the database's.
