/** The appointment records and the pure list computations of the appointment
    list view: the time partition, the name search, removal by id, the
    completion toggle and the sort by time. */
module Appointments {
  import opened Text
  import opened Sequences

  /** One booking as the backend returns it. `time` is an absolute instant
      as an integer (milliseconds since the epoch, say). */
  datatype Appointment = Appointment(id: int, name: string, time: int, reason: string, completed: bool)

  /** The two lists the view shows: "pending" (later than now) and
      "upcoming" (now or earlier), named as the view names them. */
  datatype Split = Split(pending: seq<Appointment>, upcoming: seq<Appointment>)

  /** Ascending by time. */
  predicate SortedByTime(s: seq<Appointment>)
  {
    forall i, j :: 0 <= i < j < |s| ==> s[i].time <= s[j].time
  }

  // ---------------------------------------------------------------------
  // Predicates handed to filter; naming them keeps one term per predicate.

  function IsPending(now: int): Appointment -> bool
  {
    (a: Appointment) => a.time > now
  }

  function IsUpcoming(now: int): Appointment -> bool
  {
    (a: Appointment) => a.time <= now
  }

  /** The lower-cased name contains the (already lower-cased) term. */
  function NameMatches(term: string): Appointment -> bool
  {
    (a: Appointment) => Contains(Lower(a.name), term)
  }

  function PendingMatch(term: string, now: int): Appointment -> bool
  {
    (a: Appointment) => Contains(Lower(a.name), term) && a.time > now
  }

  function UpcomingMatch(term: string, now: int): Appointment -> bool
  {
    (a: Appointment) => Contains(Lower(a.name), term) && a.time <= now
  }

  function HasOtherId(id: int): Appointment -> bool
  {
    (a: Appointment) => a.id != id
  }

  function HasId(id: int): Appointment -> bool
  {
    (a: Appointment) => a.id == id
  }

  function HasTime(t: int): Appointment -> bool
  {
    (a: Appointment) => a.time == t
  }

  // ---------------------------------------------------------------------
  // filterAppointments

  /** The time partition the view shows after a load, a delete or a toggle. */
  function Partition(s: seq<Appointment>, now: int): (r: Split)
    ensures forall a :: a in r.pending ==> a in s && a.time > now
    ensures forall a :: a in r.upcoming ==> a in s && a.time <= now
    ensures |r.pending| + |r.upcoming| == |s|
  {
    FilterComplement(s, IsPending(now), IsUpcoming(now));
    Split(Filter(s, IsPending(now)), Filter(s, IsUpcoming(now)))
  }

  /** Every record lands in exactly one list: pending holds exactly the
      records later than now and upcoming exactly the others, each list keeps
      the input's order, and together they hold the input's records with
      their multiplicities. */
  lemma PartitionExact(s: seq<Appointment>, now: int)
    ensures forall a :: a in Partition(s, now).pending <==> a in s && a.time > now
    ensures forall a :: a in Partition(s, now).upcoming <==> a in s && a.time <= now
    ensures multiset(Partition(s, now).pending) + multiset(Partition(s, now).upcoming) == multiset(s)
    ensures |Partition(s, now).pending| + |Partition(s, now).upcoming| == |s|
    ensures IsSubsequence(Partition(s, now).pending, s)
    ensures IsSubsequence(Partition(s, now).upcoming, s)
  {
    forall a
      ensures a in Partition(s, now).pending <==> a in s && a.time > now
      ensures a in Partition(s, now).upcoming <==> a in s && a.time <= now
    {
      FilterMembership(s, IsPending(now), a);
      FilterMembership(s, IsUpcoming(now), a);
    }
    FilterComplement(s, IsPending(now), IsUpcoming(now));
    FilterIsSubsequence(s, IsPending(now));
    FilterIsSubsequence(s, IsUpcoming(now));
  }

  /** A record due exactly now is "upcoming" and never "pending". */
  lemma PartitionBoundary(s: seq<Appointment>, now: int, a: Appointment)
    requires a in s && a.time == now
    ensures a in Partition(s, now).upcoming
    ensures a !in Partition(s, now).pending
  {
    FilterMembership(s, IsUpcoming(now), a);
  }

  /** On a list sorted by time the partition is a cut: the upcoming records
      followed by the pending ones are the list itself, and both halves stay
      sorted. */
  lemma PartitionOfSorted(s: seq<Appointment>, now: int)
    requires SortedByTime(s)
    ensures Partition(s, now).upcoming + Partition(s, now).pending == s
    ensures SortedByTime(Partition(s, now).pending)
    ensures SortedByTime(Partition(s, now).upcoming)
  {
    SortedCut(s, now);
    FilterKeepsSorted(s, IsPending(now));
    FilterKeepsSorted(s, IsUpcoming(now));
  }

  lemma {:induction false} SortedCut(s: seq<Appointment>, now: int)
    requires SortedByTime(s)
    ensures Filter(s, IsUpcoming(now)) + Filter(s, IsPending(now)) == s
  {
    if s != [] {
      var tail := s[1..];
      if s[0].time <= now {
        SortedTail(s);
        SortedCut(tail, now);
        CutHead(s, now);
      } else {
        AllLater(s, now);
        FilterNone(s, IsUpcoming(now));
        FilterAll(s, IsPending(now));
      }
    }
  }

  /** A record not later than now, put before a cut list, extends the cut. */
  lemma CutHead(s: seq<Appointment>, now: int)
    requires s != [] && s[0].time <= now
    requires Filter(s[1..], IsUpcoming(now)) + Filter(s[1..], IsPending(now)) == s[1..]
    ensures Filter(s, IsUpcoming(now)) + Filter(s, IsPending(now)) == s
  {
    assert s == [s[0]] + s[1..];
  }

  lemma SortedTail(s: seq<Appointment>)
    requires SortedByTime(s) && s != []
    ensures SortedByTime(s[1..])
  {
  }

  /** If the first record of a sorted list is later than now, all are. */
  lemma AllLater(s: seq<Appointment>, now: int)
    requires SortedByTime(s) && s != [] && s[0].time > now
    ensures forall a :: a in s ==> a.time > now
  {
    forall a | a in s
      ensures a.time > now
    {
      var k :| 0 <= k < |s| && s[k] == a;
    }
  }

  /** Filtering a sorted list keeps it sorted. */
  lemma {:induction false} FilterKeepsSorted(s: seq<Appointment>, p: Appointment -> bool)
    requires SortedByTime(s)
    ensures SortedByTime(Filter(s, p))
  {
    if s != [] {
      var tail := s[1..];
      FilterKeepsSorted(tail, p);
      var r := Filter(tail, p);
      forall k | 0 <= k < |r|
        ensures s[0].time <= r[k].time
      {
        assert r[k] in tail;
        var j :| 0 <= j < |tail| && tail[j] == r[k];
        assert s[j + 1] == r[k];
      }
    }
  }

  // ---------------------------------------------------------------------
  // handleSearch

  /** The lists the view shows after a search for `term` (already lower-cased):
      the records whose lower-cased name contains the term, divided by time. */
  function SearchFilter(s: seq<Appointment>, term: string, now: int): (r: Split)
    ensures forall a :: a in r.pending ==> a in s && a.time > now && Contains(Lower(a.name), term)
    ensures forall a :: a in r.upcoming ==> a in s && a.time <= now && Contains(Lower(a.name), term)
  {
    Split(Filter(s, PendingMatch(term, now)), Filter(s, UpcomingMatch(term, now)))
  }

  /** A search keeps, within each time partition, exactly the records whose
      name matches, in order; so each result list is a subsequence of the
      corresponding partition. */
  lemma SearchWithinPartition(s: seq<Appointment>, term: string, now: int)
    ensures SearchFilter(s, term, now).pending == Filter(Partition(s, now).pending, NameMatches(term))
    ensures SearchFilter(s, term, now).upcoming == Filter(Partition(s, now).upcoming, NameMatches(term))
    ensures IsSubsequence(SearchFilter(s, term, now).pending, Partition(s, now).pending)
    ensures IsSubsequence(SearchFilter(s, term, now).upcoming, Partition(s, now).upcoming)
  {
    FilterFilter(s, IsPending(now), NameMatches(term), PendingMatch(term, now));
    FilterFilter(s, IsUpcoming(now), NameMatches(term), UpcomingMatch(term, now));
    FilterIsSubsequence(Partition(s, now).pending, NameMatches(term));
    FilterIsSubsequence(Partition(s, now).upcoming, NameMatches(term));
  }

  /** Membership in the search result, both directions. */
  lemma SearchMembership(s: seq<Appointment>, term: string, now: int, a: Appointment)
    ensures a in SearchFilter(s, term, now).pending <==> a in s && a.time > now && Contains(Lower(a.name), term)
    ensures a in SearchFilter(s, term, now).upcoming <==> a in s && a.time <= now && Contains(Lower(a.name), term)
  {
    FilterMembership(s, PendingMatch(term, now), a);
    FilterMembership(s, UpcomingMatch(term, now), a);
  }

  /** The empty term matches every record: the search is then the plain partition. */
  lemma SearchEmptyTerm(s: seq<Appointment>, now: int)
    ensures SearchFilter(s, "", now) == Partition(s, now)
  {
    FilterExtensional(s, PendingMatch("", now), IsPending(now));
    FilterExtensional(s, UpcomingMatch("", now), IsUpcoming(now));
  }

  /** The stored term is already lower-case, so searching again with it
      shows the same lists as the search that stored it. */
  lemma SearchTermIdempotent(s: seq<Appointment>, input: string, now: int)
    ensures SearchFilter(s, Lower(Lower(input)), now) == SearchFilter(s, Lower(input), now)
  {
    LowerIdempotent(input);
  }

  /** The search is case-insensitive in the term: typed terms that differ
      only in the case of ASCII letters give the same two lists. */
  lemma SearchCaseInsensitive(s: seq<Appointment>, input1: string, input2: string, now: int)
    requires SameUpToCase(input1, input2)
    ensures SearchFilter(s, Lower(input1), now) == SearchFilter(s, Lower(input2), now)
  {
    LowerUpToCase(input1, input2);
  }

  /** The search is case-insensitive in the name: two records whose names
      differ only in the case of ASCII letters match the same terms. */
  lemma NameMatchCaseInsensitive(a: Appointment, b: Appointment, term: string)
    requires SameUpToCase(a.name, b.name)
    ensures NameMatches(term)(a) == NameMatches(term)(b)
  {
    LowerUpToCase(a.name, b.name);
  }

  // ---------------------------------------------------------------------
  // handleDeleteAppointment: appointments.filter(a => a.id !== id)

  function RemoveId(s: seq<Appointment>, id: int): (r: seq<Appointment>)
    ensures forall a :: a in r ==> a in s && a.id != id
    ensures |r| <= |s|
    ensures (exists a :: a in s && a.id == id) ==> |r| < |s|
  {
    FilterShrinks(s, HasOtherId(id));
    Filter(s, HasOtherId(id))
  }

  /** After removal exactly the records with a different id remain, in their
      original order; a sorted list stays sorted. */
  lemma RemoveIdExact(s: seq<Appointment>, id: int)
    ensures forall a :: a in RemoveId(s, id) <==> a in s && a.id != id
    ensures multiset(RemoveId(s, id)) + multiset(Filter(s, HasId(id))) == multiset(s)
    ensures IsSubsequence(RemoveId(s, id), s)
    ensures SortedByTime(s) ==> SortedByTime(RemoveId(s, id))
  {
    FilterComplement(s, HasOtherId(id), HasId(id));
    forall a
      ensures a in RemoveId(s, id) <==> a in s && a.id != id
    {
      FilterMembership(s, HasOtherId(id), a);
    }
    FilterIsSubsequence(s, HasOtherId(id));
    if SortedByTime(s) {
      FilterKeepsSorted(s, HasOtherId(id));
    }
  }

  /** Removing an id that no record carries leaves the list as it was. */
  lemma RemoveAbsentId(s: seq<Appointment>, id: int)
    requires forall a :: a in s ==> a.id != id
    ensures RemoveId(s, id) == s
  {
    FilterAll(s, HasOtherId(id));
  }

  /** Removing the same id twice is removing it once. */
  lemma RemoveIdIdempotent(s: seq<Appointment>, id: int)
    ensures RemoveId(RemoveId(s, id), id) == RemoveId(s, id)
  {
    FilterIdempotent(s, HasOtherId(id));
  }

  // ---------------------------------------------------------------------
  // handleCheckboxChange: appointments.map(a => a.id === id ? {...a, completed: !a.completed} : a)

  /** One record after the toggle: only `completed` may change, and it flips
      exactly when the id matches. */
  function Flip(a: Appointment, id: int): (r: Appointment)
    ensures r.id == a.id && r.name == a.name && r.time == a.time && r.reason == a.reason
    ensures r.completed != a.completed <==> a.id == id
  {
    if a.id == id then a.(completed := !a.completed) else a
  }

  function ToggleId(s: seq<Appointment>, id: int): (r: seq<Appointment>)
    ensures |r| == |s|
  {
    if s == [] then [] else [Flip(s[0], id)] + ToggleId(s[1..], id)
  }

  /** The toggle changes only `completed`, and changes it exactly on the
      records whose id matches. */
  lemma {:induction false} ToggleIdAt(s: seq<Appointment>, id: int, i: int)
    requires 0 <= i < |s|
    ensures ToggleId(s, id)[i].id == s[i].id
    ensures ToggleId(s, id)[i].name == s[i].name
    ensures ToggleId(s, id)[i].time == s[i].time
    ensures ToggleId(s, id)[i].reason == s[i].reason
    ensures ToggleId(s, id)[i].completed != s[i].completed <==> s[i].id == id
  {
    if i > 0 {
      ToggleIdAt(s[1..], id, i - 1);
    }
  }

  /** Toggling the same id twice restores the original list. */
  lemma {:induction false} ToggleTwice(s: seq<Appointment>, id: int)
    ensures ToggleId(ToggleId(s, id), id) == s
  {
    if s != [] {
      ToggleTwice(s[1..], id);
      assert ToggleId(s, id)[1..] == ToggleId(s[1..], id);
    }
  }

  /** Toggling keeps every time in place, so a sorted list stays sorted. */
  lemma ToggleKeepsSorted(s: seq<Appointment>, id: int)
    requires SortedByTime(s)
    ensures SortedByTime(ToggleId(s, id))
  {
    forall i | 0 <= i < |s|
      ensures ToggleId(s, id)[i].time == s[i].time
    {
      ToggleIdAt(s, id, i);
    }
  }

  /** The toggled record shows up, toggled, in the same partition as before:
      partitioning the toggled list is toggling each partition. */
  lemma {:induction false} TogglePartition(s: seq<Appointment>, id: int, now: int)
    ensures Partition(ToggleId(s, id), now)
         == Split(ToggleId(Partition(s, now).pending, id), ToggleId(Partition(s, now).upcoming, id))
  {
    if s != [] {
      TogglePartition(s[1..], id, now);
      assert ToggleId(s, id)[1..] == ToggleId(s[1..], id);
    }
  }

  // ---------------------------------------------------------------------
  // fetchAppointments: data.sort((a, b) => new Date(a.time) - new Date(b.time))
  //
  // Array.prototype.sort is stable, so records with equal times keep the
  // order the backend sent them in. Insertion sort is the reference.

  /** Inserts `a` before the first record that is not earlier than it. */
  function Insert(a: Appointment, s: seq<Appointment>): (r: seq<Appointment>)
    ensures multiset(r) == multiset(s) + multiset{a}
  {
    if s == [] || a.time <= s[0].time then [a] + s
    else
      assert s == [s[0]] + s[1..];
      [s[0]] + Insert(a, s[1..])
  }

  /** Inserting into a sorted list gives a sorted list. */
  lemma {:induction false} InsertKeepsSorted(a: Appointment, s: seq<Appointment>)
    requires SortedByTime(s)
    ensures SortedByTime(Insert(a, s))
  {
    if s != [] && a.time > s[0].time {
      var tail := s[1..];
      SortedTail(s);
      InsertKeepsSorted(a, tail);
      var rest := Insert(a, tail);
      forall x | x in rest
        ensures s[0].time <= x.time
      {
        assert x in multiset(rest);
        if x != a {
          NotEarlierThanHead(s, x);
        }
      }
      ConsSorted(s[0], rest);
    }
  }

  /** Every record in the tail of a sorted list is not earlier than its head. */
  lemma NotEarlierThanHead(s: seq<Appointment>, x: Appointment)
    requires SortedByTime(s) && s != [] && x in s[1..]
    ensures s[0].time <= x.time
  {
    var j :| 0 <= j < |s[1..]| && s[1..][j] == x;
    assert s[j + 1] == x;
  }

  /** A record not later than any record of a sorted list can head it. */
  lemma ConsSorted(x: Appointment, r: seq<Appointment>)
    requires SortedByTime(r)
    requires forall y :: y in r ==> x.time <= y.time
    ensures SortedByTime([x] + r)
  {
    forall j | 0 < j < |[x] + r|
      ensures x.time <= ([x] + r)[j].time
    {
      assert ([x] + r)[j] == r[j - 1];
    }
  }

  /** A stable sort ascending by time. */
  function SortByTime(s: seq<Appointment>): (r: seq<Appointment>)
    ensures multiset(r) == multiset(s)
    ensures SortedByTime(r)
  {
    if s == [] then [] else
      assert s == [s[0]] + s[1..];
      var rest := SortByTime(s[1..]);
      InsertKeepsSorted(s[0], rest);
      Insert(s[0], rest)
  }

  /** Inserting `a` into a sorted list puts it first among the records of its
      time and leaves the order of every other time's records alone. */
  lemma {:induction false} InsertStable(a: Appointment, s: seq<Appointment>, t: int)
    requires SortedByTime(s)
    ensures Filter(Insert(a, s), HasTime(t)) == (if a.time == t then [a] else []) + Filter(s, HasTime(t))
  {
    if s == [] || a.time <= s[0].time {
      assert ([a] + s)[1..] == s;
    } else {
      InsertStable(a, s[1..], t);
      assert ([s[0]] + Insert(a, s[1..]))[1..] == Insert(a, s[1..]);
    }
  }

  /** Sorting is stable: for every time, the records of that time appear in
      the sorted list in the order they had in the input. */
  lemma {:induction false} SortStable(s: seq<Appointment>, t: int)
    ensures Filter(SortByTime(s), HasTime(t)) == Filter(s, HasTime(t))
  {
    if s != [] {
      SortStable(s[1..], t);
      InsertStable(s[0], SortByTime(s[1..]), t);
    }
  }

  /** The first record of a list heads the records of its own time. */
  lemma FirstOfItsTime(s: seq<Appointment>)
    requires s != []
    ensures Filter(s, HasTime(s[0].time)) == [s[0]] + Filter(s[1..], HasTime(s[0].time))
  {
  }

  /** If the first record of `r1` appears among `r2`'s records of its time,
      `r2` does not start later than `r1`. */
  lemma HeadNotLater(r1: seq<Appointment>, r2: seq<Appointment>)
    requires SortedByTime(r2) && r1 != [] && r2 != []
    requires Filter(r1, HasTime(r1[0].time)) == Filter(r2, HasTime(r1[0].time))
    ensures r2[0].time <= r1[0].time
  {
    var t := r1[0].time;
    FirstOfItsTime(r1);
    assert r1[0] in Filter(r2, HasTime(t));
    var k :| 0 <= k < |r2| && r2[k] == r1[0];
  }

  /** Lists with the same head that agree on one time's records agree on it
      after the head too. */
  lemma SameHeadTails(r1: seq<Appointment>, r2: seq<Appointment>, t: int)
    requires r1 != [] && r2 != [] && r1[0] == r2[0]
    requires Filter(r1, HasTime(t)) == Filter(r2, HasTime(t))
    ensures Filter(r1[1..], HasTime(t)) == Filter(r2[1..], HasTime(t))
  {
    if r1[0].time == t {
      assert Filter(r1, HasTime(t))[1..] == Filter(r1[1..], HasTime(t));
      assert Filter(r2, HasTime(t))[1..] == Filter(r2[1..], HasTime(t));
    }
  }

  /** Sortedness and stability pin the result down: two lists sorted by time
      that agree on the order of every time's records are equal. So any
      stable ascending sort of the fetched data gives SortByTime's result. */
  lemma {:induction false} SortedStableUnique(r1: seq<Appointment>, r2: seq<Appointment>)
    requires SortedByTime(r1) && SortedByTime(r2)
    requires forall t :: Filter(r1, HasTime(t)) == Filter(r2, HasTime(t))
    ensures r1 == r2
    decreases |r1| + |r2|
  {
    if r1 == [] && r2 == [] {
      return;
    }
    if r1 == [] {
      FirstOfItsTime(r2);
      assert false;
    }
    if r2 == [] {
      FirstOfItsTime(r1);
      assert false;
    }
    HeadNotLater(r1, r2);
    HeadNotLater(r2, r1);
    FirstOfItsTime(r1);
    FirstOfItsTime(r2);
    assert Filter(r1, HasTime(r1[0].time)) == Filter(r2, HasTime(r1[0].time));
    assert r1[0] == r2[0];
    forall t
      ensures Filter(r1[1..], HasTime(t)) == Filter(r2[1..], HasTime(t))
    {
      SameHeadTails(r1, r2, t);
    }
    SortedTail(r1);
    SortedTail(r2);
    SortedStableUnique(r1[1..], r2[1..]);
    assert r1 == [r1[0]] + r1[1..];
    assert r2 == [r2[0]] + r2[1..];
  }

  /** What a successful load stores: the fetched records, permuted, sorted
      by time and stable; and anything with those three properties is it. */
  lemma LoadedOrder(data: seq<Appointment>, r: seq<Appointment>)
    requires SortedByTime(r)
    requires forall t :: Filter(r, HasTime(t)) == Filter(data, HasTime(t))
    ensures r == SortByTime(data)
  {
    forall t
      ensures Filter(r, HasTime(t)) == Filter(SortByTime(data), HasTime(t))
    {
      SortStable(data, t);
    }
    SortedStableUnique(r, SortByTime(data));
  }
}
