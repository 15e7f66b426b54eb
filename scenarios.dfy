/**
  End-to-end runs of the service, following the flows of the interactive
  test script: create and list, update the label, dispatch and drain,
  delete. Each starts from an empty service; `t` is the current instant.
 */
module Scenarios {
  import opened Reminders
  import opened Listing
  import opened Dispatch
  import opened Service

  lemma SecondEntry(r: seq<Reminder>)
    requires 1 < |r|
    ensures r[1] in r
  {
  }

  /** A listing with distinct ids that holds exactly `x` is `[x]`. */
  lemma OnlyEntry(r: seq<Reminder>, x: Reminder)
    requires DistinctIds(r)
    requires forall y :: y in r <==> y == x
    ensures r == [x]
  {
    assert x in r && r[0] in r;
    if 1 < |r| {
      SecondEntry(r);
      assert false;
    }
  }

  /** One dispatch pass at `now` followed by a drain of an empty queue
      returns exactly what the pass selects from the table. */
  method CycleThenDrain(svc: ReminderService, now: int) returns (out: seq<Reminder>)
    requires svc.Valid() && svc.queue == []
    modifies svc
    ensures svc.Valid() && svc.queue == []
    ensures svc.reminders == old(svc.reminders) && svc.order == old(svc.order)
    ensures svc.Stored() == old(svc.Stored())
    ensures forall id :: id in svc.dispatched <==>
      id in old(svc.dispatched) || (id in svc.reminders && svc.reminders[id].remindTime <= now)
    ensures out == DueNow(svc.Stored(), old(svc.dispatched), now)
  {
    ghost var stored := svc.Stored();
    svc.DispatchCycle(now);
    assert svc.queue[0..] == svc.queue;
    assert svc.Stored() == stored;
    out := svc.Drain();
  }

  lemma ValuesOne(r: Record)
    ensures Values([r]) == [r.Value()]
  {
  }

  /** A service holding the one reminder a successful create of `id` stores. */
  method CreateOne(id: string, chore: string, user: string, due: int, offset: int)
    returns (svc: ReminderService, rec: Record)
    ensures fresh(svc) && fresh(rec) && svc.Valid()
    ensures svc.reminders == map[id := rec] && svc.order == [id]
    ensures svc.dispatched == {} && svc.queue == []
    ensures rec.Value() == Reminder(id, chore, user, due, RemindTimeFor(due, offset))
    ensures svc.Stored() == [rec.Value()]
  {
    svc := new ReminderService();
    var resp := svc.Create(id, CreateRequest(Some(chore), Some(user), Given(due), Given(offset)));
    rec := svc.reminders[id];
    assert svc.Records() == [rec];
  }

  /** A service that holds `rec` and nothing else. */
  ghost predicate HoldsOnly(svc: ReminderService, rec: Record)
    reads svc
  {
    svc.Valid() && svc.reminders == map[rec.id := rec] && svc.order == [rec.id]
  }

  /** One dispatch pass over a service holding one reminder, with an empty
      queue: the reminder is enqueued iff it is not yet dispatched and its
      remind time has been reached, and marked once it has been reached. */
  method DispatchOne(svc: ReminderService, rec: Record, now: int)
    requires HoldsOnly(svc, rec) && svc.queue == []
    modifies svc
    ensures HoldsOnly(svc, rec)
    ensures svc.dispatched == if rec.remindTime <= now then old(svc.dispatched) + {rec.id} else old(svc.dispatched)
    ensures svc.queue == if rec.id !in old(svc.dispatched) && rec.remindTime <= now then [rec] else []
  {
    assert svc.Records() == [rec];
    ValuesOne(rec);
    svc.DispatchCycle(now);
    assert svc.queue[0..] == svc.queue;
    if svc.queue != [] {
      assert svc.queue[0].Value() in DueNow([rec.Value()], old(svc.dispatched), now);
      assert svc.queue[0] == svc.sent[|svc.sent| - |svc.queue|];
      assert svc.queue == [rec];
    }
  }

  /** An update of the one reminder a service holds: the record takes the
      patched value, and the table, the dispatched set and the queue stay. */
  method UpdateOne(svc: ReminderService, rec: Record, req: UpdateRequest) returns (resp: Response)
    requires HoldsOnly(svc, rec)
    modifies rec
    ensures HoldsOnly(svc, rec)
    ensures rec.Value() == Patched(old(rec.Value()), req)
    ensures resp == if Raises(req) then ServerError else Ok(rec.Value())
  {
    resp := svc.Update(rec.id, req);
  }

  /** A reminder due five seconds from `t` with a one-minute lead is already
      due at `t + 10`: the first drain returns it, and neither an immediate
      second drain nor a drain after a later pass returns it again. */
  method DispatchOnce(t: int) returns (first: seq<Reminder>, again: seq<Reminder>, second: seq<Reminder>)
    ensures first == [Reminder("r1", "Water the plants", "demo_user", t + 5, t - 55)]
    ensures again == [] && second == []
  {
    var svc, rec := CreateOne("r1", "Water the plants", "demo_user", t + 5, 1);
    DispatchOne(svc, rec, t + 10);
    ValuesOne(rec);
    first := svc.Drain();
    again := svc.Drain();
    DispatchOne(svc, rec, t + 70);
    second := svc.Drain();
  }

  /** A reminder due a minute after `t` with a one-minute lead fires at
      exactly `t`: a pass at `t` enqueues it, a second pass does not. */
  method FiresAtRemindTime(t: int) returns (first: seq<Reminder>, second: seq<Reminder>)
    ensures first == [Reminder("r1", "Water the plants", "u1", t + 60, t)]
    ensures second == []
  {
    var svc, rec := CreateOne("r1", "Water the plants", "u1", t + 60, 1);
    DispatchOne(svc, rec, t);
    ValuesOne(rec);
    first := svc.Drain();
    DispatchOne(svc, rec, t);
    second := svc.Drain();
  }

  /** A reminder due in an hour with a five-minute lead is not dispatched now. */
  method NotYetDue(t: int) returns (drained: seq<Reminder>)
    ensures drained == []
  {
    var svc, rec := CreateOne("r1", "Take out the trash", "demo_user", t + 3600, 5);
    DispatchOne(svc, rec, t);
    drained := svc.Drain();
  }

  /** Creating a reminder and renaming it: the listing shows the new label
      and the dates fixed at creation. */
  method CreateThenRename(d: int) returns (listed: seq<Reminder>)
    ensures listed == [Reminder("r1", "Wash the dishes", "demo_user", d, d - 1800)]
  {
    var svc, rec := CreateOne("r1", "Take out the trash", "demo_user", d, 30);
    var resp := UpdateOne(svc, rec, UpdateRequest(Some("Wash the dishes"), Absent, Absent));
    ghost var x := Reminder("r1", "Wash the dishes", "demo_user", d, d - 1800);
    assert rec.Value() == x;
    listed := svc.GetReminders("demo_user");
    forall y | y in listed ensures y == x {
      assert y.id in svc.reminders && svc.reminders[y.id].Value() == y;
    }
    OnlyEntry(listed, x);
  }

  /** A reminder deleted before it falls due is no longer listed, cannot be
      updated, and is never dispatched. */
  method DeleteBeforeDue(t: int) returns (listed: seq<Reminder>, updated: Response, drained: seq<Reminder>)
    ensures listed == [] && updated == NotFound && drained == []
  {
    var svc, rec := CreateOne("r1", "Take out the trash", "demo_user", t + 60, 0);
    var resp := svc.Delete("r1");
    listed := svc.GetReminders("demo_user");
    updated := svc.Update("r1", UpdateRequest(Some("Wash the dishes"), Absent, Absent));
    assert svc.Records() == [];
    drained := CycleThenDrain(svc, t + 60);
  }

  /** The queue holds the stored record itself: a rename between the pass and
      the drain shows in the drained entry. */
  method RenameWhileQueued(t: int) returns (drained: seq<Reminder>)
    ensures drained == [Reminder("r1", "Wash the dishes", "demo_user", t, t)]
  {
    var svc, rec := CreateOne("r1", "Take out the trash", "demo_user", t, 0);
    DispatchOne(svc, rec, t);
    var resp := UpdateOne(svc, rec, UpdateRequest(Some("Wash the dishes"), Absent, Absent));
    ValuesOne(rec);
    drained := svc.Drain();
  }

  /** Moving a dispatched reminder to a later date does not make it fire again:
      its id stays marked dispatched. */
  method RescheduleAfterDispatch(t: int) returns (first: seq<Reminder>, second: seq<Reminder>)
    ensures first == [Reminder("r1", "Water the plants", "demo_user", t + 5, t - 55)]
    ensures second == []
  {
    var svc, rec := CreateOne("r1", "Water the plants", "demo_user", t + 5, 1);
    DispatchOne(svc, rec, t + 10);
    ValuesOne(rec);
    first := svc.Drain();
    var resp := UpdateOne(svc, rec, UpdateRequest(None, Given(t + 7200), Given(0)));
    DispatchOne(svc, rec, t + 8000);
    second := svc.Drain();
  }
}
