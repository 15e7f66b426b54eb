/**
  The data model of the chore reminder service: the value a reminder
  serialises to, the mutable record the service stores, the parsed form
  of the request fields the service reads, and the responses it gives.
  Instants are whole seconds; lead times are whole minutes.
 */
module Reminders {

  datatype Option<T> = None | Some(value: T)

  /** A request field that may be missing, present but unusable
      (an unparsable timestamp, a non-numeric offset), or present. */
  datatype Field<T> = Absent | Malformed | Given(value: T)

  /** A reminder's fields as the service reports them. */
  datatype Reminder = Reminder(
    id: string,
    choreName: string,
    userId: string,
    dueDate: int,
    remindTime: int)

  /** The body of a create request. */
  datatype CreateRequest = CreateRequest(
    choreName: Option<string>,
    userId: Option<string>,
    dueDate: Field<int>,
    offsetMinutes: Field<int>)

  /** The body of an update request. */
  datatype UpdateRequest = UpdateRequest(
    choreName: Option<string>,
    dueDate: Field<int>,
    offsetMinutes: Field<int>)

  /** The outcomes of the CRUD operations: the record returned on success
      (201 or 200), the deletion message, 404, 400, and the 500 that an
      uncaught exception in an update produces. */
  datatype Response = Ok(reminder: Reminder) | Deleted | NotFound | Invalid | ServerError

  /** No two entries share an id. */
  ghost predicate DistinctIds(s: seq<Reminder>)
  {
    forall i, j :: 0 <= i < j < |s| ==> s[i].id != s[j].id
  }

  const SecondsPerMinute: int := 60

  /** The instant a reminder fires: `offsetMinutes` minutes before it is due.
      Negative offsets are not rejected and give a remind time after the due date. */
  function RemindTimeFor(dueDate: int, offsetMinutes: int): (t: int)
    ensures t + SecondsPerMinute * offsetMinutes == dueDate
    ensures offsetMinutes >= 0 <==> t <= dueDate
  {
    dueDate - SecondsPerMinute * offsetMinutes
  }

  /** An update that names both a due date and an offset, one of them
      unusable, raises part-way through. */
  predicate Raises(req: UpdateRequest)
  {
    !req.dueDate.Absent? && !req.offsetMinutes.Absent? && (req.dueDate.Malformed? || req.offsetMinutes.Malformed?)
  }

  /** The fields of `before` once update `req` has been applied, up to the
      point where it raises if it does: the label when one is given, then
      the due date and the remind time when both a due date and an offset
      are given. */
  function Patched(before: Reminder, req: UpdateRequest): (after: Reminder)
    ensures after.id == before.id && after.userId == before.userId
    ensures after.choreName == (if req.choreName.Some? then req.choreName.value else before.choreName)
    ensures req.dueDate.Absent? || req.offsetMinutes.Absent? || req.dueDate.Malformed? ==>
      after.dueDate == before.dueDate && after.remindTime == before.remindTime
    ensures req.dueDate.Given? && req.offsetMinutes.Malformed? ==>
      after.dueDate == req.dueDate.value && after.remindTime == before.remindTime
    ensures req.dueDate.Given? && req.offsetMinutes.Given? ==>
      after.dueDate == req.dueDate.value && after.remindTime + SecondsPerMinute * req.offsetMinutes.value == after.dueDate
  {
    var chore := if req.choreName.Some? then req.choreName.value else before.choreName;
    var moves := req.dueDate.Given? && !req.offsetMinutes.Absent?;
    var due := if moves then req.dueDate.value else before.dueDate;
    var remind := if moves && req.offsetMinutes.Given? then RemindTimeFor(due, req.offsetMinutes.value) else before.remindTime;
    Reminder(before.id, chore, before.userId, due, remind)
  }

  /** Sending the same update twice leaves the reminder as sending it once. */
  lemma PatchedIdempotent(before: Reminder, req: UpdateRequest)
    ensures Patched(Patched(before, req), req) == Patched(before, req)
  {
  }

  /** One stored reminder: a record whose identity and owner never change
      and whose label and dates an update overwrites in place. */
  class Record {
    const id: string
    const userId: string
    var choreName: string
    var dueDate: int
    var remindTime: int

    constructor (id: string, choreName: string, userId: string, dueDate: int, remindTime: int)
      ensures Value() == Reminder(id, choreName, userId, dueDate, remindTime)
    {
      this.id := id;
      this.userId := userId;
      this.choreName := choreName;
      this.dueDate := dueDate;
      this.remindTime := remindTime;
    }

    /** The record's current fields. */
    function Value(): (r: Reminder)
      reads this
      ensures r.id == id && r.userId == userId
    {
      Reminder(id, choreName, userId, dueDate, remindTime)
    }
  }

  /** The current fields of a sequence of records, in the same order. */
  function Values(rs: seq<Record>): (vs: seq<Reminder>)
    reads rs
    ensures |vs| == |rs|
    ensures forall k :: 0 <= k < |rs| ==> vs[k] == rs[k].Value()
  {
    if rs == [] then [] else [rs[0].Value()] + Values(rs[1..])
  }
}
