/**
  What one pass of the dispatch loop selects: walking the stored reminders
  in store order, every reminder not yet marked dispatched whose remind
  time has been reached.
 */
module Dispatch {
  import opened Reminders

  /** The reminders of `s` that one pass at instant `now` enqueues, in the order of `s`. */
  function DueNow(s: seq<Reminder>, dispatched: set<string>, now: int): (r: seq<Reminder>)
    ensures |r| <= |s|
  {
    if s == [] then []
    else
      var init, last := s[..|s| - 1], s[|s| - 1];
      assert s == init + [last];
      if last.id !in dispatched && last.remindTime <= now then DueNow(init, dispatched, now) + [last]
      else DueNow(init, dispatched, now)
  }

  /** Due-time correctness: a pass enqueues a reminder exactly when it is
      stored, not yet dispatched, and its remind time has been reached. */
  lemma {:induction false} DueNowMembers(s: seq<Reminder>, dispatched: set<string>, now: int)
    ensures forall x :: x in DueNow(s, dispatched, now) <==> x in s && x.id !in dispatched && x.remindTime <= now
  {
    if s != [] {
      var init := s[..|s| - 1];
      DueNowMembers(init, dispatched, now);
      assert s == init + [s[|s| - 1]];
    }
  }

  /** The ids of the reminders of `s` whose remind time is at or before `now`:
      the ids one pass at `now` leaves marked dispatched. */
  function Reached(s: seq<Reminder>, now: int): (ids: set<string>)
  {
    if s == [] then {}
    else
      var init, last := s[..|s| - 1], s[|s| - 1];
      Reached(init, now) + (if last.remindTime <= now then {last.id} else {})
  }

  lemma {:induction false} ReachedMembers(s: seq<Reminder>, now: int)
    ensures forall x :: x in s && x.remindTime <= now ==> x.id in Reached(s, now)
    ensures forall id :: id in Reached(s, now) ==> exists x :: x in s && x.id == id && x.remindTime <= now
  {
    if s != [] {
      var init := s[..|s| - 1];
      ReachedMembers(init, now);
      assert s == init + [s[|s| - 1]];
    }
  }

  lemma {:induction false} DueNowKeepsIdsDistinct(s: seq<Reminder>, dispatched: set<string>, now: int)
    requires DistinctIds(s)
    ensures DistinctIds(DueNow(s, dispatched, now))
  {
    if s != [] {
      var init := s[..|s| - 1];
      DueNowKeepsIdsDistinct(init, dispatched, now);
      DueNowMembers(init, dispatched, now);
    }
  }

  /** A pass after a pass at `now`, at the same or a later instant, enqueues
      nothing the first pass enqueued and only reminders whose remind time
      lies after `now`. */
  lemma SecondPassEnqueuesOnlyNewlyDue(s: seq<Reminder>, dispatched: set<string>, now: int, later: int)
    requires now <= later
    ensures forall x :: x in DueNow(s, dispatched + Reached(s, now), later) ==>
      now < x.remindTime <= later && x !in DueNow(s, dispatched, now)
  {
    ReachedMembers(s, now);
    DueNowMembers(s, dispatched + Reached(s, now), later);
    DueNowMembers(s, dispatched, now);
  }
}
