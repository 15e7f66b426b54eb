# Chore reminder service: a verified model

This project models the core of a small chore reminder service in Dafny and
proves properties of the model. The service keeps an in-memory table of
reminders, keyed by id, with a label, an owner, a due date and a remind
time. Its operations are:

- create a reminder, with remind time = due date minus a lead time in minutes;
- list one user's reminders, sorted by due date;
- update a reminder in part;
- delete a reminder;
- a background dispatch pass, which enqueues every reminder whose remind
  time has been reached and that has not been dispatched before;
- an endpoint that drains the dispatch queue in FIFO order.

Layout:

- `reminder.dfy` (module `Reminders`). The reminder value, the mutable
  stored `Record`, the parsed request bodies, the responses, and the
  remind-time arithmetic.
- `listing.dfy` (module `Listing`). The owner filter and the stable
  insertion sort on due date used by the listing.
- `dispatch.dfy` (module `Dispatch`). What one dispatch pass selects
  (`DueNow`) and the ids it marks (`Reached`), as pure functions on the
  table's contents.
- `service.dfy` (module `Service`). The service as a class holding:
  - the table (`reminders`), with its insertion order (`order`);
  - the dispatched-id set;
  - the queue.

  The ghost field `issued` records every id ever handed out. The ghost
  field `sent` records every record ever enqueued. Its invariant `Valid()`
  states at-most-once dispatch:
  - no id is ever enqueued twice;
  - an enqueued reminder that is still stored is marked dispatched;
  - that reminder is the stored record itself.

  `Sweep` specifies the dispatch loop step by step. `SweepMeaning`
  connects it to `DueNow` and `Reached`.
- `scenarios.dfy` (module `Scenarios`). End-to-end runs from an empty
  service, following the interactive test script.

Modelling choices:

- Instants are integer seconds and lead times are whole minutes. The
  remind time is `due - 60 * offset`. A negative offset is accepted, as in
  the code, and gives a remind time after the due date.
- A request field is `Absent`, `Malformed` (an unparsable timestamp or a
  non-numeric offset) or `Given`. Create turns any missing or malformed
  field into `Invalid` (HTTP 400) and stores nothing. Update applies its
  fields in the code's order, and a malformed field raises part-way
  (`ServerError`, the HTTP 500 of an uncaught exception). `Patched` gives the
  fields an update leaves and `Raises` says when it raises:
  - a malformed due date leaves the new label written;
  - a malformed offset also leaves the new due date written, with the old
    remind time.
- The fresh uuid is a parameter of `Create`. Its freshness is the
  precondition `id !in issued`.
- The table iterates in insertion order, as a Python dict does. The
  listing filters in that order and then sorts stably, and the dispatch
  pass walks the table in that order.
- The queue holds the stored records themselves. In the code the queue
  holds the same dict object that update mutates in place, so drained
  entries show the reminder's fields at drain time, not at dispatch time.
  The model follows the code here (see `RenameWhileQueued`): queue
  entries are not snapshots taken at dispatch.
- Deleting a reminder removes it from the table and the dispatched set. It
  does not remove it from the queue.
- Updating a dispatched reminder to a later remind time does not clear its
  dispatched mark, so it never fires again (see `RescheduleAfterDispatch`).

## Model

| member | source | states |
|---|---|---|
| Reminders.RemindTimeFor | chore_reminder.py:23-24 | the remind time plus the lead time in seconds is the due date; the remind time is at or before the due date exactly when the lead time is non-negative |
| Reminders.Patched | chore_reminder.py:56-61 | the id and owner never change; the label becomes the supplied one iff one is supplied; the dates stay unless an offset and a usable due date are both supplied; with both usable, the due date becomes the supplied one and the remind time the due date minus 60·offset; with an unusable offset, the due date is written and the remind time stays |
| Reminders.PatchedIdempotent | chore_reminder.py:56-61 | applying the same update twice gives the same reminder as applying it once |
| Listing.OfUser | chore_reminder.py:41-44 | the result holds exactly the entries of the table owned by the user, and no more of them than the table has |
| Listing.SortByDue | chore_reminder.py:45 | the result is ordered by due date and is a permutation (same multiset) of the input |
| Listing.SortedByDueOrdered | chore_reminder.py:45 | a list ordered between neighbours is ordered between any two positions |
| Listing.SortByDueStable | chore_reminder.py:45 | the sort is stable: for every due instant, the entries due then come out in input order |
| Listing.InsertAheadOfTies | chore_reminder.py:45 | inserting an element puts it ahead of the elements already due at the same instant and leaves the others in order |
| Listing.SortKeepsIdsDistinct | chore_reminder.py:45 | sorting a list with distinct ids gives a list with distinct ids |
| Listing.OfUserKeepsIdsDistinct | chore_reminder.py:41-44 | filtering a list with distinct ids gives a list with distinct ids |
| Dispatch.DueNowMembers | chore_reminder.py:81-83 | a pass selects a reminder exactly when it is stored, its id is not dispatched and its remind time is at or before now |
| Dispatch.ReachedMembers | chore_reminder.py:83-89 | the ids a pass marks are exactly the ids of stored reminders whose remind time is at or before now |
| Dispatch.DueNowKeepsIdsDistinct | chore_reminder.py:81-89 | one pass enqueues no id twice |
| Dispatch.SecondPassEnqueuesOnlyNewlyDue | chore_reminder.py:79-91 | a later pass over the same table enqueues nothing the first pass enqueued, only reminders whose remind time lies after the first pass's instant |
| Service.SweepMeaning | chore_reminder.py:81-89 | walking the table and marking as it goes appends exactly the selected records to the queue and adds exactly the reached ids to the dispatched set |
| Service.PickedValues | chore_reminder.py:88 | the records a pass enqueues carry exactly the values the pass selects, in table order |
| Service.Without | chore_reminder.py:70 | deleting a key keeps the other keys and only them, distinct when they were; deleting a key not present leaves the order as it is |
| Service.WithoutOnce | chore_reminder.py:70 | deleting a key that occurs once cuts out just its position: the keys before and after it keep their order, as deleting from a dict keeps the other keys' insertion order |
| Service.ReminderService.constructor | chore_reminder.py:11-15 | the service starts with an empty table, no dispatched ids and an empty queue, and satisfies its invariant |
| Service.ReminderService.StoredHoldsTable | chore_reminder.py:11 | the table's contents hold exactly the current value of each stored record |
| Service.ReminderService.ReachedIsDue | chore_reminder.py:81-83 | the ids a pass over the table reaches are exactly the stored ids whose remind time is at or before now |
| Service.ReminderService.Create | chore_reminder.py:19-36 | succeeds iff all four fields are present and usable. On success it adds exactly one fresh record under the new id, with the given label and owner, the due date and due − 60·offset, appended to the table order and returned. Otherwise it returns `Invalid` and the table is unchanged. The dispatched set and the queue are never touched |
| Service.ReminderService.GetReminders | chore_reminder.py:39-45 | the result is sorted by due date. It holds exactly the current values of the user's stored reminders, each once. The sort is stable: the reminders due at any one instant come in table order |
| Service.ReminderService.Update | chore_reminder.py:48-64 | absent id: `NotFound` and nothing changes. Present id: the record's new value is `Patched` of its old value, and the response is `ServerError` iff the request `Raises`, else `Ok` with the new value. Only that record changes; the table, the dispatched set and the queue stay, and the invariant is kept |
| Service.ReminderService.Delete | chore_reminder.py:67-76 | present id: `Deleted`, the record leaves the table, the order and the dispatched set. Absent id: `NotFound` and nothing changes. The queue is never touched |
| Service.ReminderService.Visit | chore_reminder.py:82-89 | a record is enqueued and its id marked iff the id is not dispatched and its remind time is at or before now, and the record is then appended to the enqueue history; otherwise nothing changes |
| Service.ReminderService.DispatchCycle | chore_reminder.py:80-89 | the table is unchanged. The dispatched set becomes the old set plus every stored id whose remind time has been reached. The old queue is kept as a prefix, and the appended entries' values are exactly `DueNow` of the table, in table order. Exactly the appended entries are added to the enqueue history, so the at-most-once invariant over that history is kept |
| Service.ReminderService.Drain | chore_reminder.py:94-100 | returns the queue's contents in FIFO order and leaves the queue empty; nothing else changes and the invariant is kept |
| Scenarios.CycleThenDrain | chore_reminder.py:80-100 | a pass followed by a drain of an empty queue returns exactly `DueNow` of the table, marks exactly the reached ids and leaves the table and the queue empty |
| Scenarios.CreateOne | chore_reminder.py:19-36 | a create on a new service stores exactly one record, under the new id, with the supplied fields and due − 60·offset, and nothing is dispatched or queued |
| Scenarios.DispatchOne | chore_reminder.py:81-89 | on a service holding one reminder and an empty queue, a pass enqueues that very record iff its id is not dispatched and its remind time is reached, and marks its id iff the remind time is reached |
| Scenarios.UpdateOne | chore_reminder.py:48-64 | on a service holding one reminder, an update rewrites that record to its patched value and leaves the table, the dispatched set and the queue as they are |
| Scenarios.DispatchOnce | test_chore_reminder.py:117-142 | a reminder due 5 s from now with a 1-minute lead is drained exactly once after a pass 10 s later; an immediate second drain and a drain after a later pass are empty |
| Scenarios.FiresAtRemindTime | chore_reminder.py:83 | a reminder due in 60 s with a 1-minute lead fires on a pass at exactly its remind time, and a second pass enqueues nothing |
| Scenarios.NotYetDue | chore_reminder.py:83 | a reminder due in an hour with a 5-minute lead is not dispatched now |
| Scenarios.CreateThenRename | test_chore_reminder.py:67-115 | after create and a label-only update, the listing is exactly the renamed reminder with its creation dates |
| Scenarios.DeleteBeforeDue | test_chore_reminder.py:144-163 | after delete the listing is empty, an update is `NotFound`, and a pass at the due time dispatches nothing |
| Scenarios.RenameWhileQueued | chore_reminder.py:88 | a rename between the pass and the drain shows in the drained entry, because the queue holds the stored record |
| Scenarios.RescheduleAfterDispatch | chore_reminder.py:83 | a dispatched reminder moved to a later date is not enqueued again by a pass after its new remind time |

## Left out

- The HTTP layer goes: Flask routing, JSON bodies, jsonify and status codes. Responses are the `Response` datatype, and a request body is already split into fields. A body that is not JSON at all is not modelled.
- uuid4 generation: the new id is a parameter, and its freshness is a precondition.
- ISO-8601 parsing and printing, time zones, and naive versus aware datetimes go; instants are integers. The dispatch loop's `TypeError` on a naive remind time, which would stop the dispatch thread, is not modelled.
- GetReminders: sorts on the integer due instant. The code sorts on the ISO due-date string, which gives a different order when strings carry different UTC offsets or formats.
- Fractional lead times and datetime overflow: lead times are whole minutes and instants are unbounded integers.
- The background thread, its `while True` loop, `time.sleep(60)` and the reading of the clock go. `DispatchCycle` is one pass at an instant passed as a parameter. Repeated passes are modelled by calling it again (`SecondPassEnqueuesOnlyNewlyDue`, the scenarios).
- The `print` of each due reminder is console output and is left out.
- Concurrency goes: the thread safety of `queue.Queue`, and requests interleaving with a dispatch pass. Every operation runs to completion on its own. The pass walks a copy of the table's keys and records, as `list(reminders.items())` does.
- Drain: proved for a queue that nothing adds to while it runs. Run alongside a dispatch pass, the code's `empty()`/`get()` loop could also collect entries enqueued during the drain.
- The interactive menu, `input` and HTTP client calls of the test script go; its flows are the `Scenarios` methods.
