/** Values shared by every part of the events recurrence core: instants, identifiers,
    the shape of an event document, of an update patch and of a notification. */
module Types {

  /** An absolute (UTC) instant; the model counts time in whole seconds. */
  type Instant = int

  type UserId = string

  datatype Option<T> = None | Some(value: T) {
    function GetOr(default: T): T {
      if Some? then value else default
    }
  }

  /** One key of a document dict: missing, present holding None, or present with a value.
      Where the source only asks whether a key is truthy, `Option` is used instead. */
  datatype Field<T> = Absent | Null | Val(value: T)

  /** A document identifier.  `Guid(n)` is the n-th identifier handed out by the guid
      generator; `Given` is one chosen by the client before the event reached the service. */
  datatype Id = Guid(serial: nat) | Given(text: string)

  /** Python truthiness of an identifier: only the empty string is false. */
  predicate Truthy(id: Id) {
    !(id.Given? && id.text == "")
  }

  /** Why an operation of the core raises instead of returning. */
  datatype Error =
    | UnknownWeekday(code: string)   // a byday weekday part or word that is not a DAYS code
    | MissingStart                   // updates['dates']['start'] is looked up but absent
    | MissingEnd                     // updates['dates']['end'] is looked up but absent
    | NotFound(id: Id)               // a patch names an id that is not stored

  datatype Result<T> = Ok(value: T) | Err(error: Error)

  /** dates.recurring_rule; `interval: None` stands for the generator's default of 1. */
  datatype Rule = Rule(
    frequency: string,
    interval: Option<int>,
    endRepeatMode: Option<string>,
    until: Option<Instant>,
    byday: Option<string>,
    count: Option<int>)

  /** The dates sub-document of a stored or submitted event. */
  datatype Dates = Dates(start: Instant, end: Instant, tz: Option<string>, rule: Option<Rule>)

  /** An event document.  `details` stands for every descriptive field (name, location, ...)
      that the core copies without looking at it. */
  datatype Event = Event(
    id: Option<Id>,
    guid: Option<Id>,
    recurrenceId: Field<Id>,
    expiry: Field<Instant>,
    dates: Dates,
    originalCreator: Option<UserId>,
    versionCreator: Option<UserId>,
    details: map<string, string>)

  /** The dates sub-document of an update patch: start and end may be missing. */
  datatype DatesPatch = DatesPatch(start: Option<Instant>, end: Option<Instant>, tz: Option<string>, rule: Option<Rule>)

  /** An update patch (the `updates` dict of on_update).  `skipOnUpdate` is the presence of
      the 'skip_on_update' key. */
  datatype Updates = Updates(
    dates: Option<DatesPatch>,
    guid: Option<Id>,
    recurrenceId: Field<Id>,
    expiry: Field<Instant>,
    versionCreator: Option<UserId>,
    skipOnUpdate: bool,
    details: map<string, string>)

  /** One push_notification call: its event type, `item`, optional `recurrence_id` and `user`. */
  datatype Notification = Notification(kind: string, item: Option<Id>, recurrenceId: Option<Id>, user: Option<UserId>)

  const CreatedKind: string := "events:created"
  const CreatedRecurringKind: string := "events:created:recurring"
  const UpdatedKind: string := "events:updated"
  const UpdatedRecurringKind: string := "events:updated:recurring"

  /** `dict.update(updates)` on an event: every key the patch holds replaces the event's.
      The dates sub-document is replaced as a whole, except that a patch without start or
      end keeps the event's (an event of this model always has both). */
  function ApplyUpdates(e: Event, u: Updates): (r: Event)
    ensures r.id == e.id && r.originalCreator == e.originalCreator
    ensures r.guid == if u.guid.Some? then u.guid else e.guid
    ensures u.recurrenceId != Absent ==> r.recurrenceId == u.recurrenceId
    ensures u.recurrenceId == Absent ==> r.recurrenceId == e.recurrenceId
    ensures u.expiry != Absent ==> r.expiry == u.expiry
    ensures u.expiry == Absent ==> r.expiry == e.expiry
    ensures u.versionCreator.Some? ==> r.versionCreator == u.versionCreator
    ensures u.versionCreator.None? ==> r.versionCreator == e.versionCreator
    ensures r.details.Keys == e.details.Keys + u.details.Keys
    ensures forall k :: k in u.details ==> r.details[k] == u.details[k]
    ensures r.details - u.details.Keys == e.details - u.details.Keys
    ensures u.dates.None? ==> r.dates == e.dates
    ensures u.dates.Some? ==>
      r.dates == Dates(u.dates.value.start.GetOr(e.dates.start), u.dates.value.end.GetOr(e.dates.end),
                       u.dates.value.tz, u.dates.value.rule)
  {
    Event(
      e.id,
      if u.guid.Some? then u.guid else e.guid,
      if u.recurrenceId.Absent? then e.recurrenceId else u.recurrenceId,
      if u.expiry.Absent? then e.expiry else u.expiry,
      match u.dates
      case None => e.dates
      case Some(p) => Dates(p.start.GetOr(e.dates.start), p.end.GetOr(e.dates.end), p.tz, p.rule),
      e.originalCreator,
      if u.versionCreator.Some? then u.versionCreator else e.versionCreator,
      e.details + u.details)
  }

  /** No element occurs twice. */
  predicate Distinct<T(==)>(s: seq<T>) {
    forall i, j :: 0 <= i < j < |s| ==> s[i] != s[j]
  }
}
