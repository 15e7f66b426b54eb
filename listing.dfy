/**
  Listing a user's reminders: the reminders of one user, in store order,
  sorted ascending by due date with a stable sort (equal due dates keep
  their store order, as a stable sort does).
 */
module Listing {
  import opened Reminders

  /** The reminders of `user`, in the order of `s`. */
  function OfUser(s: seq<Reminder>, user: string): (r: seq<Reminder>)
    ensures forall x :: x in r <==> x in s && x.userId == user
    ensures |r| <= |s|
  {
    if s == [] then []
    else if s[0].userId == user then [s[0]] + OfUser(s[1..], user)
    else OfUser(s[1..], user)
  }

  /** The reminders of `s` due at instant `due`, in the order of `s`. */
  function DueAt(s: seq<Reminder>, due: int): (r: seq<Reminder>)
  {
    if s == [] then []
    else if s[0].dueDate == due then [s[0]] + DueAt(s[1..], due)
    else DueAt(s[1..], due)
  }

  /** Each reminder is due no later than the next one. */
  ghost predicate SortedByDue(s: seq<Reminder>)
  {
    forall i :: 0 < i < |s| ==> s[i - 1].dueDate <= s[i].dueDate
  }

  /** A sorted list is ordered between any two positions, not only neighbours. */
  lemma {:induction false} SortedByDueOrdered(s: seq<Reminder>)
    requires SortedByDue(s)
    ensures forall i, j :: 0 <= i < j < |s| ==> s[i].dueDate <= s[j].dueDate
  {
    if s != [] {
      var t := s[1..];
      SortedByDueOrdered(t);
      forall i, j | 0 <= i < j < |s| ensures s[i].dueDate <= s[j].dueDate {
        if 0 < i {
          assert s[i] == t[i - 1] && s[j] == t[j - 1];
        } else if 1 < j {
          assert s[1] == t[0] && s[j] == t[j - 1];
        }
      }
    }
  }

  /** `x` placed before the first element of `s` due at or after it. */
  function Insert(x: Reminder, s: seq<Reminder>): (r: seq<Reminder>)
    requires SortedByDue(s)
    ensures SortedByDue(r)
    ensures multiset(r) == multiset(s) + multiset{x}
    ensures r[0] == x || (s != [] && r[0] == s[0])
  {
    if s == [] || x.dueDate <= s[0].dueDate then [x] + s
    else
      var tail := Insert(x, s[1..]);
      assert s == [s[0]] + s[1..];
      [s[0]] + tail
  }

  /** Insertion sort on the due date. */
  function SortByDue(s: seq<Reminder>): (r: seq<Reminder>)
    ensures SortedByDue(r)
    ensures multiset(r) == multiset(s)
  {
    if s == [] then []
    else
      assert s == [s[0]] + s[1..];
      Insert(s[0], SortByDue(s[1..]))
  }

  /** Inserting `x` puts it ahead of every element already due at the same instant. */
  lemma {:induction false} InsertAheadOfTies(x: Reminder, s: seq<Reminder>, due: int)
    requires SortedByDue(s)
    ensures DueAt(Insert(x, s), due) == if x.dueDate == due then [x] + DueAt(s, due) else DueAt(s, due)
  {
    if s == [] || x.dueDate <= s[0].dueDate {
      assert ([x] + s)[1..] == s;
    } else {
      InsertAheadOfTies(x, s[1..], due);
      assert ([s[0]] + Insert(x, s[1..]))[1..] == Insert(x, s[1..]);
    }
  }

  /** The sort is stable: the reminders due at any one instant come out in
      the order they went in. */
  lemma {:induction false} SortByDueStable(s: seq<Reminder>, due: int)
    ensures DueAt(SortByDue(s), due) == DueAt(s, due)
  {
    if s != [] {
      SortByDueStable(s[1..], due);
      InsertAheadOfTies(s[0], SortByDue(s[1..]), due);
    }
  }

  lemma DistinctCons(h: Reminder, t: seq<Reminder>)
    requires DistinctIds(t) && forall y :: y in t ==> y.id != h.id
    ensures DistinctIds([h] + t)
  {
  }

  lemma {:induction false} InsertKeepsIdsDistinct(x: Reminder, s: seq<Reminder>)
    requires SortedByDue(s) && DistinctIds(s)
    requires forall y :: y in s ==> y.id != x.id
    ensures DistinctIds(Insert(x, s))
  {
    if s == [] || x.dueDate <= s[0].dueDate {
      DistinctCons(x, s);
    } else {
      assert s == [s[0]] + s[1..];
      InsertKeepsIdsDistinct(x, s[1..]);
      var tail := Insert(x, s[1..]);
      forall y | y in tail ensures y.id != s[0].id {
        assert y in multiset(s[1..]) + multiset{x};
      }
      DistinctCons(s[0], tail);
    }
  }

  /** Sorting neither duplicates nor merges entries. */
  lemma {:induction false} SortKeepsIdsDistinct(s: seq<Reminder>)
    requires DistinctIds(s)
    ensures DistinctIds(SortByDue(s))
  {
    if s != [] {
      SortKeepsIdsDistinct(s[1..]);
      forall y | y in SortByDue(s[1..]) ensures y.id != s[0].id {
        assert y in multiset(s[1..]);
      }
      InsertKeepsIdsDistinct(s[0], SortByDue(s[1..]));
    }
  }

  lemma {:induction false} OfUserKeepsIdsDistinct(s: seq<Reminder>, user: string)
    requires DistinctIds(s)
    ensures DistinctIds(OfUser(s, user))
  {
    if s != [] {
      OfUserKeepsIdsDistinct(s[1..], user);
    }
  }
}
