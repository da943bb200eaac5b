/** Records as the handlers hand them to MongoDB and get them back. */
module Documents {
  import opened Json

  /** A MongoDB ObjectId; `str()` of it is its hexadecimal text. */
  datatype ObjectId = ObjectId(hex: string)

  /** A calendar day as `datetime.strptime(...)` parses it. */
  datatype Date = Date(year: int, month: int, day: int)

  /** One entry of a stored record. */
  datatype Field =
    | Plain(value: Value)        // anything JSON can carry
    | CalendarDate(date: Date)   // a `datetime.date`
    | Midnight(date: Date)       // a `datetime.datetime` at 00:00 of that day
    | Id(oid: ObjectId)          // an ObjectId, as the store assigns to `_id`

  /** A record: a dict from keys to entries. */
  type Document = map<string, Field>

  /** Some entry of the record is a `datetime.date`, a type BSON has no encoding for
      (it encodes `datetime.datetime` only). */
  predicate HoldsCalendarDate(doc: Document) {
    exists k :: k in doc && doc[k].CalendarDate?
  }
}
