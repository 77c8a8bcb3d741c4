/** The appointment list view's controller: its state and the handlers that
    change it. Each handler runs to completion in one step; what the network
    and the confirmation dialog answer is passed in, and so is the current
    time. */
module ListView {
  import opened Text
  import opened Appointments

  datatype Option<T> = None | Some(value: T)

  /** How the GET of the appointment list ended: with the records, with a
      response whose status is not ok, or with a rejected promise (the
      transport failed or the body was not JSON) carrying its message. */
  datatype FetchOutcome = Fetched(data: seq<Appointment>) | FetchNotOk | FetchRejected(message: string)

  /** How the DELETE of one appointment ended. */
  datatype DeleteOutcome = Deleted | DeleteNotOk | DeleteRejected(message: string)

  const FetchFailedMessage: string := "Failed to fetch appointments"
  const DeleteFailedMessage: string := "Failed to delete appointment"

  /** The message the view shows for a failed load. */
  function FetchError(outcome: FetchOutcome): (message: string)
    ensures outcome.FetchRejected? ==> message == outcome.message
    ensures outcome.FetchNotOk? ==> message == FetchFailedMessage
  {
    match outcome
    case FetchRejected(message) => message
    case _ => FetchFailedMessage
  }

  /** The message the view shows for a failed delete. */
  function DeleteError(response: DeleteOutcome): (message: string)
    ensures response.DeleteRejected? ==> message == response.message
    ensures response.DeleteNotOk? ==> message == DeleteFailedMessage
  {
    match response
    case DeleteRejected(message) => message
    case _ => DeleteFailedMessage
  }

  class AppointmentList {
    var appointments: seq<Appointment>
    var isLoading: bool
    var error: Option<string>
    var searchTerm: string
    var filteredPending: seq<Appointment>
    var filteredUpcoming: seq<Appointment>

    // The search term and the instant of the last recomputation of the two
    // shown lists (the term is "" after a plain partition).
    ghost var shownTerm: string
    ghost var shownAt: int

    /** The collection is kept sorted by time, and the shown lists are always
        the search of the current collection made at the last recomputation. */
    ghost predicate Valid()
      reads this
    {
      && SortedByTime(appointments)
      && Shown() == SearchFilter(appointments, shownTerm, shownAt)
    }

    /** The two lists on screen. */
    function Shown(): Split
      reads this
    {
      Split(filteredPending, filteredUpcoming)
    }

    /** The initial state of the component. */
    constructor ()
      ensures Valid()
      ensures appointments == [] && !isLoading && error == None && searchTerm == ""
      ensures filteredPending == [] && filteredUpcoming == []
    {
      appointments := [];
      isLoading := false;
      error := None;
      searchTerm := "";
      filteredPending := [];
      filteredUpcoming := [];
      shownTerm := "";
      shownAt := 0;
    }

    /** filterAppointments, applied to the collection just stored: shows its
        time partition at `now`, without the search term. */
    method FilterAppointments(now: int)
      requires SortedByTime(appointments)
      modifies this`filteredPending, this`filteredUpcoming, this`shownTerm, this`shownAt
      ensures Valid()
      ensures Shown() == Partition(appointments, now)
    {
      var split := Partition(appointments, now);
      filteredPending := split.pending;
      filteredUpcoming := split.upcoming;
      shownTerm, shownAt := "", now;
      SearchEmptyTerm(appointments, now);
    }

    /** fetchAppointments: on success stores the fetched records sorted by
        time and shows their partition; on failure keeps the collection and
        the shown lists and records the error. Loading is over either way. */
    method Load(outcome: FetchOutcome, now: int)
      requires Valid()
      modifies this
      ensures Valid()
      ensures !isLoading
      ensures searchTerm == old(searchTerm)
      ensures outcome.Fetched? ==>
        && appointments == SortByTime(outcome.data)
        && Shown() == Partition(appointments, now)
        && error == old(error)
      ensures !outcome.Fetched? ==>
        && appointments == old(appointments)
        && Shown() == old(Shown())
        && error == Some(FetchError(outcome))
    {
      isLoading := true;
      match outcome {
        case Fetched(data) =>
          appointments := SortByTime(data);
          FilterAppointments(now);
        case _ =>
          error := Some(FetchError(outcome));
      }
      isLoading := false;
    }

    /** handleDeleteAppointment: nothing happens unless the user confirms;
        an ok response removes the record with that id and shows the
        partition of what is left; a failed one records the error and
        leaves the collection and the shown lists alone. */
    method Delete(id: int, confirmed: bool, response: DeleteOutcome, now: int)
      requires Valid()
      modifies this
      ensures Valid()
      ensures isLoading == old(isLoading) && searchTerm == old(searchTerm)
      ensures !confirmed ==>
        && appointments == old(appointments)
        && Shown() == old(Shown())
        && error == old(error)
      ensures confirmed && response.Deleted? ==>
        && appointments == RemoveId(old(appointments), id)
        && Shown() == Partition(appointments, now)
        && error == old(error)
      ensures confirmed && !response.Deleted? ==>
        && appointments == old(appointments)
        && Shown() == old(Shown())
        && error == Some(DeleteError(response))
    {
      if !confirmed {
        return;
      }
      match response {
        case Deleted =>
          RemoveIdExact(appointments, id);
          appointments := RemoveId(appointments, id);
          FilterAppointments(now);
        case _ =>
          error := Some(DeleteError(response));
      }
    }

    /** handleSearch: stores the lower-cased term and shows, within each time
        partition, the records whose lower-cased name contains it. */
    method Search(input: string, now: int)
      requires Valid()
      modifies this
      ensures Valid()
      ensures searchTerm == Lower(input)
      ensures Shown() == SearchFilter(appointments, searchTerm, now)
      ensures appointments == old(appointments)
      ensures error == old(error) && isLoading == old(isLoading)
    {
      var term := Lower(input);
      searchTerm := term;
      var split := SearchFilter(appointments, term, now);
      filteredPending := split.pending;
      filteredUpcoming := split.upcoming;
      shownTerm, shownAt := term, now;
    }

    /** handleCheckboxChange: flips `completed` on the records with that id
        and shows the partition of the result, without the search term. */
    method Toggle(id: int, now: int)
      requires Valid()
      modifies this
      ensures Valid()
      ensures appointments == ToggleId(old(appointments), id)
      ensures Shown() == Partition(appointments, now)
      ensures searchTerm == old(searchTerm) && error == old(error) && isLoading == old(isLoading)
    {
      ToggleKeepsSorted(appointments, id);
      appointments := ToggleId(appointments, id);
      FilterAppointments(now);
    }
  }
}

/** A load, delete and toggle walk-through, stated against the handlers'
    contracts: Amy is due in the past, Bo in the future. */
module Scenario {
  import opened Sequences
  import opened Appointments
  import opened ListView

  method LoadDeleteToggle()
  {
    var amy := Appointment(1, "Amy", 50, "", false);
    var bo := Appointment(2, "Bo", 150, "", false);
    var boDone := bo.(completed := true);
    // The pure values each step produces.
    assert [amy, bo][1..] == [bo];
    assert SortByTime([bo]) == [bo];
    assert SortByTime([amy, bo]) == Insert(amy, [bo]) == [amy, bo];
    assert Partition([amy, bo], 100) == Split([bo], [amy]) by {
      assert Filter([bo], IsPending(100)) == [bo];
      assert Filter([bo], IsUpcoming(100)) == [];
    }
    assert RemoveId([amy, bo], 1) == [bo] by {
      assert Filter([bo], HasOtherId(1)) == [bo];
    }
    assert Partition([bo], 100) == Split([bo], []);
    assert ToggleId([bo], 2) == [boDone];
    assert Partition([boDone], 100) == Split([boDone], []);

    var view := new AppointmentList();
    view.Load(Fetched([amy, bo]), 100);
    assert view.appointments == [amy, bo];
    assert view.Shown() == Split([bo], [amy]);
    view.Delete(1, true, Deleted, 100);
    assert view.appointments == [bo];
    assert view.Shown() == Split([bo], []);
    view.Toggle(2, 100);
    assert view.Shown() == Split([boDone], []);
  }
}
