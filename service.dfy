/**
  The reminder service: the reminder table, the set of ids already
  dispatched, and the FIFO queue of dispatched reminders, with the
  create, list, update, delete, dispatch-pass and drain operations.
 */
module Service {
  import opened Reminders
  import opened Listing
  import opened Dispatch

  predicate DistinctStrings(s: seq<string>)
  {
    forall i, j :: 0 <= i < j < |s| ==> s[i] != s[j]
  }

  /** The records stored under `ids`, in the order of `ids`. */
  function Lookup(ids: seq<string>, m: map<string, Record>): (rs: seq<Record>)
    requires forall k :: 0 <= k < |ids| ==> ids[k] in m
    ensures |rs| == |ids|
    ensures forall k :: 0 <= k < |ids| ==> rs[k] == m[ids[k]]
    ensures forall r :: r in rs ==> r in m.Values
  {
    if ids == [] then [] else [m[ids[0]]] + Lookup(ids[1..], m)
  }

  /** The records of `rs` that one pass at `now` enqueues, given their
      values `vs` at the start of the pass, in the order of `rs`. */
  function Picked(rs: seq<Record>, vs: seq<Reminder>, dispatched: set<string>, now: int): (picked: seq<Record>)
    requires |rs| == |vs|
  {
    if rs == [] then []
    else
      var n := |rs| - 1;
      Picked(rs[..n], vs[..n], dispatched, now)
        + (if vs[n].id !in dispatched && vs[n].remindTime <= now then [rs[n]] else [])
  }

  /** The queue and dispatched set after a pass over records `rs`, whose
      values are `vs`, starting from `queue` and `dispatched`: each record
      in turn is enqueued and marked when its id is not yet marked and its
      remind time is at or before `now`. */
  function Sweep(queue: seq<Record>, dispatched: set<string>, rs: seq<Record>, vs: seq<Reminder>, now: int)
    : (after: (seq<Record>, set<string>))
    requires |rs| == |vs|
  {
    if rs == [] then (queue, dispatched)
    else
      var n := |rs| - 1;
      var (q, d) := Sweep(queue, dispatched, rs[..n], vs[..n], now);
      if vs[n].id !in d && vs[n].remindTime <= now then (q + [rs[n]], d + {vs[n].id}) else (q, d)
  }

  lemma SweepStep(queue: seq<Record>, dispatched: set<string>, rs: seq<Record>, vs: seq<Reminder>, i: nat, now: int)
    requires i < |rs| == |vs|
    ensures Sweep(queue, dispatched, rs[..i + 1], vs[..i + 1], now) ==
      var (q, d) := Sweep(queue, dispatched, rs[..i], vs[..i], now);
      if vs[i].id !in d && vs[i].remindTime <= now then (q + [rs[i]], d + {vs[i].id}) else (q, d)
  {
    assert rs[..i + 1][..i] == rs[..i];
    assert vs[..i + 1][..i] == vs[..i];
  }

  /** With distinct ids a pass appends exactly the records `Picked` selects
      and marks exactly the ids `Reached` collects: marking during the pass
      never hides a later record, and nothing marked is enqueued again. */
  lemma {:induction false} SweepMeaning(queue: seq<Record>, dispatched: set<string>, rs: seq<Record>, vs: seq<Reminder>, now: int)
    requires |rs| == |vs| && DistinctIds(vs)
    ensures Sweep(queue, dispatched, rs, vs, now) ==
      (queue + Picked(rs, vs, dispatched, now), dispatched + Reached(vs, now))
  {
    if rs != [] {
      var n := |rs| - 1;
      SweepMeaning(queue, dispatched, rs[..n], vs[..n], now);
      ReachedMembers(vs[..n], now);
      assert vs[n].id !in Reached(vs[..n], now);
      var p, r := Picked(rs[..n], vs[..n], dispatched, now), Reached(vs[..n], now);
      if vs[n].id !in dispatched && vs[n].remindTime <= now {
        assert (queue + p) + [rs[n]] == queue + (p + [rs[n]]);
        assert (dispatched + r) + {vs[n].id} == dispatched + (r + {vs[n].id});
      } else {
        assert Picked(rs, vs, dispatched, now) == p + [] == p;
        if vs[n].remindTime <= now {
          assert dispatched + r == dispatched + (r + {vs[n].id});
        } else {
          assert Reached(vs, now) == r + {} == r;
        }
      }
    } else {
      assert queue + [] == queue && dispatched + {} == dispatched;
    }
  }

  /** The records a pass picks show the values `DueNow` selects. */
  lemma {:induction false} PickedValues(rs: seq<Record>, dispatched: set<string>, now: int)
    ensures Values(Picked(rs, Values(rs), dispatched, now)) == DueNow(Values(rs), dispatched, now)
  {
    if rs != [] {
      var n := |rs| - 1;
      var vs := Values(rs);
      assert vs[..n] == Values(rs[..n]);
      PickedValues(rs[..n], dispatched, now);
      var p := Picked(rs[..n], vs[..n], dispatched, now);
      var picks := vs[n].id !in dispatched && vs[n].remindTime <= now;
      var extra := if picks then [rs[n]] else [];
      assert Values(extra) == if picks then [vs[n]] else [];
      ValuesAppend(p, extra);
      assert DueNow(vs, dispatched, now) == DueNow(vs[..n], dispatched, now) + (if picks then [vs[n]] else []);
    }
  }

  lemma ValuesAppend(a: seq<Record>, b: seq<Record>)
    ensures Values(a + b) == Values(a) + Values(b)
  {
  }

  /** `s` with every occurrence of `x` removed, the rest in order. */
  function Without(s: seq<string>, x: string): (r: seq<string>)
    ensures forall y :: y in r <==> y in s && y != x
    ensures DistinctStrings(s) ==> DistinctStrings(r)
    ensures x !in s ==> r == s
  {
    if s == [] then []
    else if s[0] == x then Without(s[1..], x)
    else
      assert s[0] !in s[1..] || !DistinctStrings(s);
      assert s == [s[0]] + s[1..];
      [s[0]] + Without(s[1..], x)
  }

  /** Removing a key that occurs once, at position `i`, cuts out just that
      position: the keys before and after it keep their order. */
  lemma {:induction false} WithoutOnce(s: seq<string>, x: string, i: nat)
    requires i < |s| && s[i] == x && x !in s[..i] && x !in s[i + 1..]
    ensures Without(s, x) == s[..i] + s[i + 1..]
  {
    if i == 0 {
      assert s[1..] == s[i + 1..];
    } else {
      assert s[0] in s[..i];
      var t := s[1..];
      assert t[..i - 1] == s[1..i] && t[i..] == s[i + 1..];
      assert forall y :: y in s[1..i] ==> y in s[..i];
      WithoutOnce(t, x, i - 1);
      assert s[..i] == [s[0]] + t[..i - 1];
    }
  }

  /** The table is keyed by its records' ids, listed once each in `order`,
      and every stored id has been issued. */
  ghost predicate StoreOk(reminders: map<string, Record>, order: seq<string>, issued: set<string>)
  {
    && (forall id :: id in reminders <==> id in order)
    && DistinctStrings(order)
    && (forall id :: id in reminders ==> reminders[id].id == id)
    && reminders.Keys <= issued
  }

  /** The queue is what has been enqueued and not yet drained. */
  ghost predicate QueueOk(queue: seq<Record>, sent: seq<Record>)
  {
    |queue| <= |sent| && queue == sent[|sent| - |queue|..]
  }

  /** At most once: no id is ever enqueued twice, and an enqueued reminder
      that is still stored is the stored record and is marked dispatched. */
  ghost predicate SentOk(sent: seq<Record>, issued: set<string>, reminders: map<string, Record>, dispatched: set<string>)
  {
    && (forall i, j :: 0 <= i < j < |sent| ==> sent[i].id != sent[j].id)
    && (forall k :: 0 <= k < |sent| ==> sent[k].id in issued)
    && (forall k :: 0 <= k < |sent| && sent[k].id in reminders ==>
          sent[k].id in dispatched && reminders[sent[k].id] == sent[k])
  }

  lemma QueueOkPop(queue: seq<Record>, sent: seq<Record>)
    requires QueueOk(queue, sent) && queue != []
    ensures QueueOk(queue[1..], sent)
  {
  }

  /** Enqueueing a stored, not yet dispatched record and marking it
      dispatched keeps the queue and at-most-once invariants. */
  lemma EnqueueKeepsInvariants(queue: seq<Record>, sent: seq<Record>, issued: set<string>,
                               reminders: map<string, Record>, dispatched: set<string>, rec: Record)
    requires QueueOk(queue, sent) && SentOk(sent, issued, reminders, dispatched)
    requires reminders.Keys <= issued && dispatched <= reminders.Keys
    requires rec.id in reminders && reminders[rec.id] == rec && rec.id !in dispatched
    ensures QueueOk(queue + [rec], sent + [rec])
    ensures SentOk(sent + [rec], issued, reminders, dispatched + {rec.id})
    ensures dispatched + {rec.id} <= reminders.Keys
  {
  }

  class ReminderService {
    /** id -> stored record. */
    var reminders: map<string, Record>
    /** The ids of `reminders` in insertion order, the order in which the table is walked. */
    var order: seq<string>
    /** The ids already dispatched. */
    var dispatched: set<string>
    /** The dispatched records awaiting a drain, oldest first. The queue holds
        the stored records themselves, so a later update shows in it. */
    var queue: seq<Record>
    /** Every id ever handed out. */
    ghost var issued: set<string>
    /** Every record ever enqueued, in enqueue order. */
    ghost var sent: seq<Record>

    ghost predicate Valid()
      reads this
    {
      && StoreOk(reminders, order, issued)
      && dispatched <= reminders.Keys
      && QueueOk(queue, sent)
      && SentOk(sent, issued, reminders, dispatched)
    }

    /** The stored records in table order. */
    function Records(): (rs: seq<Record>)
      reads this
      requires Valid()
      ensures |rs| == |order|
      ensures forall r :: r in rs ==> r in reminders.Values
    {
      Lookup(order, reminders)
    }

    /** The current contents of the table, in table order. */
    function Stored(): (s: seq<Reminder>)
      reads this, reminders.Values
      requires Valid()
      ensures DistinctIds(s)
    {
      var vs := Values(Records());
      assert forall k :: 0 <= k < |vs| ==> vs[k].id == order[k];
      vs
    }

    /** The table's contents hold exactly the current value of every stored record. */
    lemma StoredHoldsTable()
      requires Valid()
      ensures forall x: Reminder :: x in Stored() <==> x.id in reminders && reminders[x.id].Value() == x
    {
    }

    /** The ids one pass at `now` marks are those of the stored reminders whose
        remind time is at or before `now`. */
    lemma ReachedIsDue(now: int)
      requires Valid()
      ensures forall id :: id in Reached(Stored(), now) <==> id in reminders && reminders[id].remindTime <= now
    {
      StoredHoldsTable();
      ReachedMembers(Stored(), now);
      forall id | id in reminders && reminders[id].remindTime <= now ensures id in Reached(Stored(), now) {
        assert reminders[id].Value() in Stored();
      }
    }

    /** The current contents of the queue, oldest first. */
    function Pending(): (s: seq<Reminder>)
      reads this, set r | r in queue
      ensures |s| == |queue|
    {
      Values(queue)
    }

    constructor ()
      ensures Valid()
      ensures reminders == map[] && order == [] && dispatched == {} && queue == []
      ensures issued == {} && sent == []
    {
      reminders, order, dispatched, queue := map[], [], {}, [];
      issued, sent := {}, [];
    }

    /** Creates a reminder under the fresh id `id` when every field of the
        request is present and usable; otherwise rejects it and stores nothing. */
    method Create(id: string, req: CreateRequest) returns (resp: Response)
      requires Valid()
      requires id !in issued
      modifies this
      ensures Valid()
      ensures id !in old(reminders)
      ensures resp.Ok? <==>
        req.choreName.Some? && req.userId.Some? && req.dueDate.Given? && req.offsetMinutes.Given?
      ensures resp.Ok? ==>
        && resp.reminder == Reminder(id, req.choreName.value, req.userId.value, req.dueDate.value,
                                     RemindTimeFor(req.dueDate.value, req.offsetMinutes.value))
        && id in reminders && fresh(reminders[id]) && reminders[id].Value() == resp.reminder
        && reminders == old(reminders)[id := reminders[id]]
        && order == old(order) + [id]
        && issued == old(issued) + {id}
      ensures !resp.Ok? ==>
        resp == Invalid && reminders == old(reminders) && order == old(order) && issued == old(issued)
      ensures dispatched == old(dispatched) && queue == old(queue) && sent == old(sent)
    {
      if !(req.choreName.Some? && req.userId.Some? && req.dueDate.Given? && req.offsetMinutes.Given?) {
        return Invalid;
      }
      var due := req.dueDate.value;
      var rec := new Record(id, req.choreName.value, req.userId.value, due,
                            RemindTimeFor(due, req.offsetMinutes.value));
      reminders := reminders[id := rec];
      order := order + [id];
      issued := issued + {id};
      resp := Ok(rec.Value());
    }

    /** The reminders of `user`, sorted ascending by due date. */
    function GetReminders(user: string): (r: seq<Reminder>)
      reads this, reminders.Values
      requires Valid()
      ensures SortedByDue(r)
      ensures forall x :: x in r <==>
        x.userId == user && x.id in reminders && reminders[x.id].Value() == x
      ensures DistinctIds(r)
      ensures forall due :: DueAt(r, due) == DueAt(OfUser(Stored(), user), due)
    {
      var mine := OfUser(Stored(), user);
      assert forall due :: DueAt(SortByDue(mine), due) == DueAt(mine, due) by {
        forall due ensures DueAt(SortByDue(mine), due) == DueAt(mine, due) {
          SortByDueStable(mine, due);
        }
      }
      StoredHoldsTable();
      OfUserKeepsIdsDistinct(Stored(), user);
      SortKeepsIdsDistinct(mine);
      assert forall x :: x in SortByDue(mine) <==> x in mine by {
        forall x ensures x in SortByDue(mine) <==> x in mine {
          assert x in SortByDue(mine) <==> x in multiset(SortByDue(mine));
        }
      }
      SortByDue(mine)
    }

    /** Updates the label when one is given, and the due date and remind time
        when both a due date and an offset are given. A malformed due date or
        offset raises after the fields before it have been written. */
    method Update(id: string, req: UpdateRequest) returns (resp: Response)
      requires Valid()
      modifies if id in reminders then {reminders[id]} else {}
      ensures Valid()
      ensures id !in reminders ==> resp == NotFound
      ensures id in reminders ==> reminders[id].Value() == Patched(old(reminders[id].Value()), req)
      ensures id in reminders ==> resp == if Raises(req) then ServerError else Ok(reminders[id].Value())
    {
      if id !in reminders {
        return NotFound;
      }
      var rec := reminders[id];
      if req.choreName.Some? {
        rec.choreName := req.choreName.value;
      }
      if !req.dueDate.Absent? && !req.offsetMinutes.Absent? {
        if req.dueDate.Malformed? {
          return ServerError;
        }
        var due := req.dueDate.value;
        rec.dueDate := due;
        if req.offsetMinutes.Malformed? {
          return ServerError;
        }
        rec.remindTime := RemindTimeFor(due, req.offsetMinutes.value);
      }
      resp := Ok(rec.Value());
    }

    /** Removes a stored reminder and forgets that it was dispatched; the
        queue keeps whatever was already enqueued. */
    method Delete(id: string) returns (resp: Response)
      requires Valid()
      modifies this
      ensures Valid()
      ensures old(id in reminders) ==>
        && resp == Deleted
        && reminders == old(reminders) - {id}
        && order == Without(old(order), id)
        && dispatched == old(dispatched) - {id}
      ensures old(id !in reminders) ==>
        resp == NotFound && reminders == old(reminders) && order == old(order) && dispatched == old(dispatched)
      ensures queue == old(queue) && issued == old(issued) && sent == old(sent)
    {
      if id !in reminders {
        return NotFound;
      }
      reminders := reminders - {id};
      order := Without(order, id);
      dispatched := dispatched - {id};
      resp := Deleted;
    }

    /** One pass of the dispatch loop at instant `now`: walks the table in
        table order and enqueues, then marks dispatched, every reminder not
        yet dispatched whose remind time is at or before `now`. */
    method DispatchCycle(now: int)
      requires Valid()
      modifies this
      ensures Valid()
      ensures reminders == old(reminders) && order == old(order) && issued == old(issued)
      ensures Stored() == old(Stored())
      ensures forall id :: id in dispatched <==>
        id in old(dispatched) || (id in reminders && reminders[id].remindTime <= now)
      ensures |old(queue)| <= |queue| && queue[..|old(queue)|] == old(queue)
      ensures Values(queue[|old(queue)|..]) == DueNow(Stored(), old(dispatched), now)
      ensures sent == old(sent) + queue[|old(queue)|..]
    {
      var ids, recs := order, Records();
      ghost var stored := Stored();
      assert DistinctIds(stored) && stored == Values(recs);
      var i := 0;
      while i < |ids|
        invariant 0 <= i <= |ids|
        invariant Valid()
        invariant reminders == old(reminders) && order == old(order) && issued == old(issued)
        invariant (queue, dispatched) == Sweep(old(queue), old(dispatched), recs[..i], stored[..i], now)
        invariant (sent, dispatched) == Sweep(old(sent), old(dispatched), recs[..i], stored[..i], now)
      {
        assert recs[i] == reminders[ids[i]] && stored[i] == recs[i].Value();
        SweepStep(old(queue), old(dispatched), recs, stored, i, now);
        SweepStep(old(sent), old(dispatched), recs, stored, i, now);
        var enqueued := Visit(ids[i], now);
        i := i + 1;
      }
      assert stored[..i] == stored && recs[..i] == recs;
      SweepMeaning(old(queue), old(dispatched), recs, stored, now);
      SweepMeaning(old(sent), old(dispatched), recs, stored, now);
      ghost var picked := Picked(recs, stored, old(dispatched), now);
      assert queue[..|old(queue)|] == old(queue) && queue[|old(queue)|..] == picked;
      ReachedIsDue(now);
      PickedValues(recs, old(dispatched), now);
    }

    /** The body of the dispatch loop for the stored reminder `id`: enqueue it
        and mark it dispatched if it is not yet dispatched and its remind time
        is at or before `now`. */
    method Visit(id: string, now: int) returns (enqueued: bool)
      requires Valid() && id in reminders
      modifies this
      ensures Valid()
      ensures reminders == old(reminders) && order == old(order) && issued == old(issued)
      ensures enqueued == (id !in old(dispatched) && reminders[id].remindTime <= now)
      ensures enqueued ==> queue == old(queue) + [reminders[id]] && dispatched == old(dispatched) + {id}
      ensures !enqueued ==> queue == old(queue) && dispatched == old(dispatched)
      ensures sent == if enqueued then old(sent) + [reminders[id]] else old(sent)
    {
      var rec := reminders[id];
      enqueued := id !in dispatched && rec.remindTime <= now;
      if enqueued {
        EnqueueKeepsInvariants(queue, sent, issued, reminders, dispatched, rec);
        queue := queue + [rec];
        sent := sent + [rec];
        dispatched := dispatched + {id};
      }
    }

    /** Empties the queue and returns its contents, oldest first. */
    method Drain() returns (out: seq<Reminder>)
      requires Valid()
      modifies this
      ensures Valid()
      ensures out == old(Pending())
      ensures queue == [] && Stored() == old(Stored())
      ensures reminders == old(reminders) && order == old(order) && dispatched == old(dispatched)
      ensures issued == old(issued) && sent == old(sent)
    {
      out := [];
      ghost var all, pending := queue, Pending();
      while queue != []
        invariant QueueOk(queue, sent)
        invariant reminders == old(reminders) && order == old(order) && dispatched == old(dispatched)
        invariant issued == old(issued) && sent == old(sent)
        invariant |out| <= |all| && queue == all[|out|..]
        invariant forall k :: 0 <= k < |out| ==> out[k] == pending[k]
        decreases |queue|
      {
        QueueOkPop(queue, sent);
        out := out + [queue[0].Value()];
        queue := queue[1..];
      }
    }
  }
}
