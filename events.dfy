/** The event service's `POST /events` handler (`create_event`) without its HTTP and
    database plumbing: a decision from the request's JSON object to a 400, a 201 with
    the stored record, or a 500. */
module Events {
  import opened Json
  import opened Documents

  /** Keys the payload must carry, in the order the handler tests them. */
  const RequiredFields: seq<string> :=
    ["location", "event_name", "artists", "date", "start_time", "end_time", "price"]

  /** Keys of the record the handler builds, before the store assigns `_id`. */
  const EventKeys: set<string> :=
    {"location", "event_name", "artists", "date", "start_time", "end_time", "price"}

  const MissingFieldsMessage: string := "Missing required fields"
  const InvalidLocationMessage: string := "Invalid location format"

  /** The exception that turns the request into a 500. */
  datatype Fault =
    | NotContainer(location: Value)  // `'longitude' in location` on a value that has no `in`
    | NotMapping(location: Value)    // `location['longitude']` on a str or a list
    | BadDate(message: string)       // `datetime.strptime` raised
    | BadPrice(message: string)      // `float()` raised
    | StoreFailed(message: string)   // `insert_one` raised

  /** What the handler answers. */
  datatype Reply =
    | BadRequest(error: string)
    | Created(event: Document)
    | ServerError(fault: Fault)

  /** The foreign calls the handler makes, each returning its value or the text of the
      exception it raised: `datetime.strptime(v, '%Y-%m-%d')`, `float(v)` and
      `insert_one(event).inserted_id`. */
  datatype Runtime = Runtime(
    parseDate: Value -> Result<Date, string>,
    toFloat: Value -> Result<real, string>,
    insert: Document -> Result<ObjectId, string>)

  /** How the parsed date is stored: as `.date()` (what the handler does) or as the
      `datetime` that `strptime` returns (what BSON can encode). */
  datatype DateStorage = AsCalendarDate | AsMidnight

  function StoredDate(storage: DateStorage, day: Date): Field {
    match storage
    case AsCalendarDate => CalendarDate(day)
    case AsMidnight => Midnight(day)
  }

  function Status(reply: Reply): int {
    match reply
    case BadRequest(_) => 400
    case Created(_) => 201
    case ServerError(_) => 500
  }

  /** The name Python gives the type of a value in its error messages. */
  function TypeName(v: Value): string {
    match v
    case Null => "NoneType"
    case Bool(_) => "bool"
    case Int(_) => "int"
    case Float(_) => "float"
    case Str(_) => "str"
    case List(_) => "list"
    case Object(_) => "dict"
  }

  /** `str(e)` for the exception: CPython 3.11 wording for its own TypeErrors, the
      foreign call's own text otherwise. */
  function Message(fault: Fault): (text: string)
    ensures fault.BadDate? || fault.BadPrice? || fault.StoreFailed? ==> text == fault.message
    ensures fault.NotContainer? ==> "argument of type '" <= text
  {
    match fault
    case NotContainer(v) => "argument of type '" + TypeName(v) + "' is not iterable"
    case NotMapping(v) =>
      if v.Str? then "string indices must be integers, not 'str'"
      else "list indices must be integers or slices, not str"
    case BadDate(m) => m
    case BadPrice(m) => m
    case StoreFailed(m) => m
  }

  /** The JSON body of an error reply: `{'error': ...}`. */
  function ErrorBody(reply: Reply): Value
    requires !reply.Created?
  {
    match reply
    case BadRequest(m) => Object(map["error" := Str(m)])
    case ServerError(f) => Object(map["error" := Str(Message(f))])
  }

  predicate HasRequiredFields(data: map<string, Value>) {
    forall f :: f in RequiredFields ==> f in data
  }

  /** `key in container`: key lookup on a dict, substring test on a str, membership on
      a list (a str equals only the same str); any other value raises TypeError. */
  function Contains(container: Value, key: string): (r: Result<bool, Fault>)
    ensures r.Success? <==> container.Object? || container.Str? || container.List?
    ensures r.Failure? ==> r.error == NotContainer(container)
    ensures container.Object? ==> (r == Success(true) <==> key in container.fields)
  {
    match container
    case Object(m) => Success(key in m)
    case Str(s) => Success(IsSubstring(key, s))
    case List(xs) => Success(Str(key) in xs)
    case _ => Failure(NotContainer(container))
  }

  /** `all(coord in location for coord in ['longitude', 'latitude'])`, which stops at the
      first key it does not find. */
  function HasCoordinates(location: Value): (r: Result<bool, Fault>)
    ensures r == Success(true)
        <==> Contains(location, "longitude") == Success(true) && Contains(location, "latitude") == Success(true)
    ensures r.Failure? ==> r.error == NotContainer(location)
    ensures location.Object? ==>
              (r == Success(true) <==> "longitude" in location.fields && "latitude" in location.fields)
  {
    match Contains(location, "longitude")
    case Failure(f) => Failure(f)
    case Success(found) => if !found then Success(false) else Contains(location, "latitude")
  }

  /** A GeoJSON Point: `coordinates` holds the longitude first (RFC 7946, section 3.1.1). */
  function GeoJsonPoint(longitude: Value, latitude: Value): Value {
    Object(map["type" := Str("Point"), "coordinates" := List([longitude, latitude])])
  }

  /** The `location` entry of the record: only a dict can be subscripted by a key. */
  function PointOf(location: Value): (r: Result<Value, Fault>)
    requires HasCoordinates(location) == Success(true)
    ensures r.Success? <==> location.Object?
    ensures r.Failure? ==> r.error == NotMapping(location)
    ensures r.Success? ==> r.value.Object? && r.value.fields.Keys == {"type", "coordinates"}
    ensures r.Success? ==> r.value.fields["type"] == Str("Point")
    ensures r.Success? ==>
              r.value.fields["coordinates"] == List([location.fields["longitude"], location.fields["latitude"]])
  {
    match location
    case Object(m) => Success(GeoJsonPoint(m["longitude"], m["latitude"]))
    case _ => Failure(NotMapping(location))
  }

  /** The `event` dict literal, whose entries Python evaluates in order. */
  function ShapeEvent(storage: DateStorage, rt: Runtime, data: map<string, Value>): (r: Result<Document, Fault>)
    requires HasRequiredFields(data)
    requires HasCoordinates(data["location"]) == Success(true)
    ensures r.Failure? ==> r.error.NotMapping? || r.error.BadDate? || r.error.BadPrice?
    ensures r.Success? ==> r.value.Keys == EventKeys && "_id" !in r.value
    ensures r.Success? ==> rt.parseDate(data["date"]).Success? && rt.toFloat(data["price"]).Success?
    ensures r.Success? ==> forall k :: k in ["event_name", "artists", "start_time", "end_time"] ==>
              r.value[k] == Plain(data[k])
  {
    match PointOf(data["location"])
    case Failure(f) => Failure(f)
    case Success(point) =>
      match rt.parseDate(data["date"])
      case Failure(m) => Failure(BadDate(m))
      case Success(day) =>
        match rt.toFloat(data["price"])
        case Failure(m) => Failure(BadPrice(m))
        case Success(price) =>
          Success(map[
            "location" := Plain(point),
            "event_name" := Plain(data["event_name"]),
            "artists" := Plain(data["artists"]),
            "date" := StoredDate(storage, day),
            "start_time" := Plain(data["start_time"]),
            "end_time" := Plain(data["end_time"]),
            "price" := Plain(Float(price))])
  }

  /** The handler, with the way it stores the date as a parameter. */
  function HandleCreate(storage: DateStorage, rt: Runtime, data: map<string, Value>): (r: Reply)
    ensures r.BadRequest? ==> r.error == MissingFieldsMessage || r.error == InvalidLocationMessage
    ensures r.Created? ==> HasRequiredFields(data) && data["location"].Object?
    ensures r.Created? ==> r.event.Keys == EventKeys + {"_id"} && r.event["_id"].Plain?
    ensures r.ServerError? && r.fault.StoreFailed? ==>
              && HasRequiredFields(data)
              && HasCoordinates(data["location"]) == Success(true)
              && ShapeEvent(storage, rt, data).Success?
  {
    if !HasRequiredFields(data) then BadRequest(MissingFieldsMessage)
    else
      match HasCoordinates(data["location"])
      case Failure(f) => ServerError(f)
      case Success(found) =>
        if !found then BadRequest(InvalidLocationMessage)
        else
          match ShapeEvent(storage, rt, data)
          case Failure(f) => ServerError(f)
          case Success(event) =>
            match rt.insert(event)
            case Failure(m) => ServerError(StoreFailed(m))
            case Success(id) => Created(event["_id" := Plain(Str(id.hex))])
  }

  /** `create_event` as written: the date is stored as `datetime.date`. */
  function CreateEvent(rt: Runtime, data: map<string, Value>): (r: Reply)
    ensures r.Created? ==> "date" in r.event && r.event["date"].CalendarDate?
  {
    HandleCreate(AsCalendarDate, rt, data)
  }

  /** `create_event` storing the parsed `datetime` itself, which BSON can encode. */
  function CreateEventStoringDatetime(rt: Runtime, data: map<string, Value>): (r: Reply)
    ensures r.Created? ==> "date" in r.event && r.event["date"].Midnight?
  {
    HandleCreate(AsMidnight, rt, data)
  }

  /** The payload the handler can turn into a record: every required key, a dict
      location with both coordinates, a date and a price the conversions accept. */
  predicate WellFormed(rt: Runtime, data: map<string, Value>) {
    && HasRequiredFields(data)
    && data["location"].Object?
    && "longitude" in data["location"].fields
    && "latitude" in data["location"].fields
    && rt.parseDate(data["date"]).Success?
    && rt.toFloat(data["price"]).Success?
  }

  // ---------------------------------------------------------------------------
  // Properties of the handler
  // ---------------------------------------------------------------------------

  /** A missing required key, and nothing else, gives 'Missing required fields'; the
      test comes first, so the location is not looked at. */
  lemma MissingFieldsIff(storage: DateStorage, rt: Runtime, data: map<string, Value>)
    ensures HandleCreate(storage, rt, data) == BadRequest(MissingFieldsMessage)
        <==> exists f :: f in RequiredFields && f !in data
  {
  }

  /** With every required key present, 'Invalid location format' comes exactly when the
      location lacks one of the coordinates (and does not make `in` raise). */
  lemma InvalidLocationIff(storage: DateStorage, rt: Runtime, data: map<string, Value>)
    ensures HandleCreate(storage, rt, data) == BadRequest(InvalidLocationMessage)
        <==> HasRequiredFields(data) && HasCoordinates(data["location"]) == Success(false)
  {
  }

  /** A dict location that lacks `longitude` or `latitude` is a 400. */
  lemma DictWithoutCoordinateRejected(storage: DateStorage, rt: Runtime, data: map<string, Value>)
    requires HasRequiredFields(data) && data["location"].Object?
    requires "longitude" !in data["location"].fields || "latitude" !in data["location"].fields
    ensures HandleCreate(storage, rt, data) == BadRequest(InvalidLocationMessage)
    ensures Status(HandleCreate(storage, rt, data)) == 400
  {
  }

  /** A location that is not a dict never yields a record: it is a 400 when it does not
      mention both coordinates, and otherwise a 500 from a TypeError. */
  lemma NonDictLocationNeverCreated(storage: DateStorage, rt: Runtime, data: map<string, Value>)
    requires HasRequiredFields(data) && !data["location"].Object?
    ensures HandleCreate(storage, rt, data) == BadRequest(InvalidLocationMessage)
         || HandleCreate(storage, rt, data) == ServerError(NotContainer(data["location"]))
         || HandleCreate(storage, rt, data) == ServerError(NotMapping(data["location"]))
  {
  }

  /** A str location in which both `longitude` and `latitude` occur passes the `in`
      test, then fails to be subscripted by a key: a 500, not the 400 for a malformed
      location. */
  lemma StrLocationNamingBothIsServerError(storage: DateStorage, rt: Runtime, data: map<string, Value>, s: string)
    requires HasRequiredFields(data)
    requires data["location"] == Str(s)
    requires IsSubstring("longitude", s) && IsSubstring("latitude", s)
    ensures HandleCreate(storage, rt, data) == ServerError(NotMapping(Str(s)))
    ensures Message(HandleCreate(storage, rt, data).fault) == "string indices must be integers, not 'str'"
  {
  }

  /** A list location holding the strings `longitude` and `latitude` passes the `in`
      test, then fails to be subscripted by a key: a 500. */
  lemma ListLocationNamingBothIsServerError(storage: DateStorage, rt: Runtime, data: map<string, Value>, xs: seq<Value>)
    requires HasRequiredFields(data)
    requires data["location"] == List(xs)
    requires Str("longitude") in xs && Str("latitude") in xs
    ensures HandleCreate(storage, rt, data) == ServerError(NotMapping(List(xs)))
    ensures Message(HandleCreate(storage, rt, data).fault) == "list indices must be integers or slices, not str"
  {
  }

  /** One instance: the location "longitude,latitude". */
  lemma StringLocationIsServerError(storage: DateStorage, rt: Runtime, data: map<string, Value>)
    requires HasRequiredFields(data)
    requires data["location"] == Str("longitude,latitude")
    ensures HandleCreate(storage, rt, data) == ServerError(NotMapping(Str("longitude,latitude")))
  {
    var s := "longitude,latitude";
    assert "longitude" <= s[0..];
    assert "latitude" <= s[10..];
    StrLocationNamingBothIsServerError(storage, rt, data, s);
  }

  /** A date `strptime` rejects is a 500 carrying its message, whatever the price, and
      the store is never called. */
  lemma BadDateIsServerError(storage: DateStorage, rt: Runtime, data: map<string, Value>, m: string,
                             insert: Document -> Result<ObjectId, string>)
    requires HasRequiredFields(data) && data["location"].Object?
    requires "longitude" in data["location"].fields && "latitude" in data["location"].fields
    requires rt.parseDate(data["date"]) == Failure(m)
    ensures HandleCreate(storage, rt, data) == ServerError(BadDate(m))
    ensures ErrorBody(HandleCreate(storage, rt, data)) == Object(map["error" := Str(m)])
    ensures HandleCreate(storage, rt.(insert := insert), data) == HandleCreate(storage, rt, data)
  {
  }

  /** A price `float()` rejects is a 500 carrying its message, and the store is never
      called. */
  lemma BadPriceIsServerError(storage: DateStorage, rt: Runtime, data: map<string, Value>, m: string,
                              insert: Document -> Result<ObjectId, string>)
    requires HasRequiredFields(data) && data["location"].Object?
    requires "longitude" in data["location"].fields && "latitude" in data["location"].fields
    requires rt.parseDate(data["date"]).Success?
    requires rt.toFloat(data["price"]) == Failure(m)
    ensures HandleCreate(storage, rt, data) == ServerError(BadPrice(m))
    ensures ErrorBody(HandleCreate(storage, rt, data)) == Object(map["error" := Str(m)])
    ensures HandleCreate(storage, rt.(insert := insert), data) == HandleCreate(storage, rt, data)
  {
  }

  /** A 201 comes exactly from a well-formed payload whose record the store accepts. */
  lemma CreatedIff(storage: DateStorage, rt: Runtime, data: map<string, Value>)
    ensures HandleCreate(storage, rt, data).Created?
        <==> WellFormed(rt, data) && rt.insert(ShapeEvent(storage, rt, data).value).Success?
    ensures Status(HandleCreate(storage, rt, data)) == 201 <==> HandleCreate(storage, rt, data).Created?
  {
  }

  /** On a 201 the stored location is the GeoJSON Point of the payload's coordinates,
      longitude first. */
  lemma CreatedLocationIsPoint(storage: DateStorage, rt: Runtime, data: map<string, Value>)
    requires HandleCreate(storage, rt, data).Created?
    ensures data["location"].Object?
    ensures "longitude" in data["location"].fields && "latitude" in data["location"].fields
    ensures HandleCreate(storage, rt, data).event["location"]
         == Plain(Object(map["type" := Str("Point"),
                             "coordinates" := List([data["location"].fields["longitude"],
                                                    data["location"].fields["latitude"]])]))
  {
  }

  /** On a 201 the name, artists and times are the payload's own values, the date and
      price are what the conversions returned, and the record has exactly the listed
      keys plus `_id`: any other payload key is dropped. */
  lemma CreatedRecordContents(storage: DateStorage, rt: Runtime, data: map<string, Value>)
    requires HandleCreate(storage, rt, data).Created?
    ensures HasRequiredFields(data)
    ensures HandleCreate(storage, rt, data).event.Keys == EventKeys + {"_id"}
    ensures forall k :: k in ["event_name", "artists", "start_time", "end_time"] ==>
              HandleCreate(storage, rt, data).event[k] == Plain(data[k])
    ensures rt.parseDate(data["date"]).Success?
    ensures HandleCreate(storage, rt, data).event["date"]
         == StoredDate(storage, rt.parseDate(data["date"]).value)
    ensures rt.toFloat(data["price"]).Success?
    ensures HandleCreate(storage, rt, data).event["price"] == Plain(Float(rt.toFloat(data["price"]).value))
  {
  }

  /** On a 201 the store was handed the record without `_id`, and `_id` is the string
      form of the ObjectId it assigned. */
  lemma CreatedIdAfterInsert(storage: DateStorage, rt: Runtime, data: map<string, Value>)
    requires HandleCreate(storage, rt, data).Created?
    ensures "_id" in HandleCreate(storage, rt, data).event
    ensures rt.insert(HandleCreate(storage, rt, data).event - {"_id"}).Success?
    ensures HandleCreate(storage, rt, data).event["_id"]
         == Plain(Str(rt.insert(HandleCreate(storage, rt, data).event - {"_id"}).value.hex))
  {
    var event := ShapeEvent(storage, rt, data).value;
    assert "_id" !in event;
    assert HandleCreate(storage, rt, data).event - {"_id"} == event;
  }

  // ---------------------------------------------------------------------------
  // The stored date and the BSON encoder
  // ---------------------------------------------------------------------------

  /** A store that, like pymongo's BSON encoder, refuses any record holding a
      `datetime.date`. */
  ghost predicate RefusesCalendarDates(rt: Runtime) {
    forall doc :: HoldsCalendarDate(doc) ==> rt.insert(doc).Failure?
  }

  /** ... and accepts every other record. */
  ghost predicate RefusesOnlyCalendarDates(rt: Runtime) {
    forall doc :: rt.insert(doc).Failure? <==> HoldsCalendarDate(doc)
  }

  /** As written, every record reaching the store holds a `datetime.date`, so against
      such a store the handler never answers 201. */
  lemma CreateEventNeverCreated(rt: Runtime, data: map<string, Value>)
    requires RefusesCalendarDates(rt)
    ensures !CreateEvent(rt, data).Created?
  {
    if HasRequiredFields(data) && HasCoordinates(data["location"]) == Success(true) {
      var shaped := ShapeEvent(AsCalendarDate, rt, data);
      if shaped.Success? {
        assert shaped.value["date"].CalendarDate?;
        assert HoldsCalendarDate(shaped.value);
      }
    }
  }

  /** As written, a well-formed payload is shaped into a record, the store refuses it,
      and the reply is the 500 carrying the store's message. */
  lemma CreateEventStoreRefusal(rt: Runtime, data: map<string, Value>)
    requires RefusesCalendarDates(rt)
    requires WellFormed(rt, data)
    ensures ShapeEvent(AsCalendarDate, rt, data).Success?
    ensures rt.insert(ShapeEvent(AsCalendarDate, rt, data).value).Failure?
    ensures CreateEvent(rt, data)
         == ServerError(StoreFailed(rt.insert(ShapeEvent(AsCalendarDate, rt, data).value).error))
  {
    var shaped := ShapeEvent(AsCalendarDate, rt, data);
    assert shaped.value["date"].CalendarDate?;
    assert HoldsCalendarDate(shaped.value);
  }

  /** Storing the parsed `datetime` instead, every well-formed payload is answered 201
      by a store that refuses only `datetime.date` values. */
  lemma CreateEventStoringDatetimeCreated(rt: Runtime, data: map<string, Value>)
    requires RefusesOnlyCalendarDates(rt)
    requires WellFormed(rt, data)
    ensures CreateEventStoringDatetime(rt, data).Created?
  {
    var event := ShapeEvent(AsMidnight, rt, data).value;
    assert forall k :: k in event ==> !event[k].CalendarDate?;
    assert !HoldsCalendarDate(event);
  }
}
