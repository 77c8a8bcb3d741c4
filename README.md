# Appointment list view — a Dafny model

This project models the client-side appointment list of a small appointment
scheduling web application (`client/src/AppointmentList.js`). The component
fetches the appointment list from a REST backend and sorts it by time. It shows
the list in two sections: "Pending" (time strictly after now) and "Upcoming"
(time now or earlier). The naming is inverted relative to common usage, and
the model keeps it as written. It filters both sections by a case-insensitive
name search, deletes an appointment after a confirmation and an ok response
from the server, and flips an appointment's `completed` flag locally.

Layout:

- `text.dfy`, module `Text`: ASCII lower-casing (`toLowerCase`) and substring
  search (`String.prototype.includes`).
- `sequences.dfy`, module `Sequences`: `Array.prototype.filter` as `Filter`,
  order-preserving subsequences, and the facts about filter the rest uses.
- `appointments.dfy`, module `Appointments`: the `Appointment` record and the
  pure list computations: `Partition` (`filterAppointments`), `SearchFilter`
  (the two filters of `handleSearch`), `RemoveId` (the filter in
  `handleDeleteAppointment`), `ToggleId` (the map in `handleCheckboxChange`)
  and `SortByTime` (the stable `Array.prototype.sort` with the time comparator).
- `appointment_list.dfy`, module `ListView`: class `AppointmentList` with the
  component's six state variables as fields (`appointments`, `isLoading`,
  `error`, `searchTerm`, `filteredPending`, `filteredUpcoming`). The handlers
  are the methods `Load`, `Delete`, `Search` and `Toggle`. Module `Scenario`
  walks through the load, delete and toggle sequence (Amy in the past, Bo in the
  future) against the handlers' contracts.

The outside world becomes parameters:

- the current time is an integer `now`;
- the outcome of the GET is a `FetchOutcome`: the records, a non-ok
  response, or a rejected promise with its message;
- the answer of `window.confirm` is a boolean `confirmed`;
- the outcome of the DELETE is a `DeleteOutcome`.

The class invariant `Valid()` has two parts. First, the collection is always
sorted ascending by time. Second, the two shown lists are always the search of
the current collection, made with the term and at the instant of the last
recomputation. Those are kept in the ghost fields `shownTerm` and `shownAt`.

Behaviour of the code worth noting:

- A failed load leaves `appointments` as it was. That is empty only on the
  first load; a re-fetch that fails keeps the previous list.
- A successful load or delete does not clear an earlier `error`.
- `Load`, `Delete` and `Toggle` recompute the shown lists with no search
  term, while `searchTerm` keeps the old term. The search box then still
  shows a term that no longer filters the lists.
- Deleting an id that no record carries has no local error. The server's
  answer decides: on an ok answer the collection is unchanged
  (`RemoveAbsentId`) and the lists are recomputed; on a failed answer the
  error message is set.
- The completion toggle is local only; no request is sent.

## Model

| member | source | states |
|---|---|---|
| `Text.Lower` | client/src/AppointmentList.js:164 | The lowered string has the input's length. Each ASCII capital becomes the lower-case letter at the same alphabet position, every other character is kept, and no capital is left. |
| `Text.LowerUpToCase` | client/src/AppointmentList.js:164-167 | Two strings lower to the same string exactly when they differ at most in the case of ASCII letters (both directions). |
| `Text.LowerIdempotent` | client/src/AppointmentList.js:164-167 | Lowering an already lowered string changes nothing, so the stored term and a lowered name compare consistently. |
| `Text.ContainsAt` | client/src/AppointmentList.js:167 | `includes` holds exactly when the term occurs at some position of the name (both directions). |
| `Text.ContainsEmpty` | client/src/AppointmentList.js:167 | The empty term occurs in every name. |
| `Text.Contains` | client/src/AppointmentList.js:167 | `includes`: the empty term is always found, and a found term is no longer than the name. Its exact meaning is proved by `Text.ContainsAt`. |
| `Text.CaseInsensitiveExample` | client/src/AppointmentList.js:164-167 | After lowering both sides, the term "ALI" is found in the name "ali baba", and the term "ali" in the name "Ali Baba". |
| `Sequences.Filter` | client/src/AppointmentList.js:137-138 | filter's result is no longer than its input and holds only input elements that pass the predicate. |
| `Sequences.FilterMembership` | client/src/AppointmentList.js:137-138 | An element is in the filtered list exactly when it is in the input and passes the predicate. |
| `Sequences.FilterIsSubsequence` | client/src/AppointmentList.js:137-138 | filter keeps the input's order: its result is a subsequence of the input. |
| `Sequences.FilterComplement` | client/src/AppointmentList.js:137-138 | Filters by complementary predicates divide the input exactly: multisets and lengths add up to the input's. |
| `Appointments.Partition` | client/src/AppointmentList.js:135-141 | Pending holds only input records later than now, upcoming only input records due now or earlier, and the two lengths add up to the input's. The converse and the multiset equality are `Appointments.PartitionExact`. |
| `Appointments.PartitionExact` | client/src/AppointmentList.js:135-141 | Pending holds exactly the records with time > now and upcoming exactly those with time <= now. Both keep the input order, and their multisets and lengths sum to the input's. |
| `Appointments.PartitionBoundary` | client/src/AppointmentList.js:137-138 | A record due exactly now is in upcoming and not in pending. |
| `Appointments.PartitionOfSorted` | client/src/AppointmentList.js:120-122 | On a list sorted by time, upcoming followed by pending is the list itself, and both halves are sorted. |
| `Appointments.FilterKeepsSorted` | client/src/AppointmentList.js:152-154 | Filtering a list sorted by time keeps it sorted, so a delete keeps the order. |
| `Appointments.SearchFilter` | client/src/AppointmentList.js:166-171 | Each search list holds only collection records on its side of now whose lowered name contains the term. The converse is `Appointments.SearchMembership`. |
| `Appointments.SearchWithinPartition` | client/src/AppointmentList.js:166-171 | Each search list is the corresponding time partition filtered by the name match, so it is a subsequence of that partition. |
| `Appointments.SearchMembership` | client/src/AppointmentList.js:166-171 | A record is in a search list exactly when it is in the collection, on that side of now, and its lowered name contains the term. |
| `Appointments.SearchEmptyTerm` | client/src/AppointmentList.js:166-171 | Searching for the empty term gives the plain time partition. |
| `Appointments.SearchCaseInsensitive` | client/src/AppointmentList.js:164-171 | Typed terms that differ only in letter case give the same two search lists. |
| `Appointments.NameMatchCaseInsensitive` | client/src/AppointmentList.js:167 | Records whose names differ only in letter case match the same terms. |
| `Appointments.SearchTermIdempotent` | client/src/AppointmentList.js:164-171 | Searching again with the stored (lowered) term gives the same lists as the search that stored it. |
| `Appointments.RemoveId` | client/src/AppointmentList.js:152 | The result holds only input records with another id, is no longer than the input, and is strictly shorter when some record carries the id. The converse is `Appointments.RemoveIdExact`. |
| `Appointments.RemoveIdExact` | client/src/AppointmentList.js:152 | After removal, exactly the records with another id remain. Together with the removed ones they make up the input's multiset, they keep their order, and a sorted list stays sorted. |
| `Appointments.RemoveAbsentId` | client/src/AppointmentList.js:152 | Removing an id that no record carries leaves the collection unchanged. |
| `Appointments.RemoveIdIdempotent` | client/src/AppointmentList.js:152 | Removing the same id twice is the same as removing it once. |
| `Appointments.Flip` | client/src/AppointmentList.js:178 | The spread copy keeps id, name, time and reason, and `completed` differs exactly when the record's id is the toggled one. |
| `Appointments.ToggleId` | client/src/AppointmentList.js:177-179 | The toggled list has the same length as the input. |
| `Appointments.ToggleIdAt` | client/src/AppointmentList.js:177-179 | At every position, id, name, time and reason stay the same, and `completed` changes exactly when the id matches. |
| `Appointments.ToggleTwice` | client/src/AppointmentList.js:177-179 | Toggling the same id twice restores the original list. |
| `Appointments.ToggleKeepsSorted` | client/src/AppointmentList.js:177-180 | Toggling keeps every time, so a sorted collection stays sorted. |
| `Appointments.TogglePartition` | client/src/AppointmentList.js:177-181 | The partition of the toggled list is each previous partition toggled, so a toggled record stays on its side of now. |
| `Appointments.Insert` | client/src/AppointmentList.js:120 | Insertion adds exactly one copy of the record to the multiset of the list. |
| `Appointments.InsertKeepsSorted` | client/src/AppointmentList.js:120 | Inserting into a list sorted by time keeps it sorted. |
| `Appointments.SortByTime` | client/src/AppointmentList.js:120 | The sorted list is a permutation of the fetched data and ascending by time. |
| `Appointments.InsertStable` | client/src/AppointmentList.js:120 | Insertion puts the record first among the records of its time and leaves every other time's records in order. |
| `Appointments.SortStable` | client/src/AppointmentList.js:120 | The sort is stable: for every time, the records of that time keep their fetched order. |
| `Appointments.SortedStableUnique` | client/src/AppointmentList.js:120 | Two time-sorted lists that agree on the order of each time's records are equal. |
| `Appointments.LoadedOrder` | client/src/AppointmentList.js:120-121 | Any list that is sorted by time and stable with respect to the fetched data is what a load stores. |
| `ListView.FetchError` | client/src/AppointmentList.js:124-127 | A non-ok response yields "Failed to fetch appointments"; a rejected fetch yields the rejection's own message. |
| `ListView.DeleteError` | client/src/AppointmentList.js:156-159 | A non-ok response yields "Failed to delete appointment"; a rejected delete yields the rejection's own message. |
| `ListView.AppointmentList.constructor` | client/src/AppointmentList.js:105-111 | Initial state: empty collection and lists, not loading, no error, empty term. |
| `ListView.AppointmentList.FilterAppointments` | client/src/AppointmentList.js:135-141 | Shows the time partition of the collection at `now`, without the search term, and restores the class invariant. |
| `ListView.AppointmentList.Load` | client/src/AppointmentList.js:114-131 | On success, stores the stable time sort of the data and shows its partition, keeping `error`. On a non-ok or rejected fetch, sets `error` to "Failed to fetch appointments" or the rejection's message and changes nothing else. `isLoading` is false afterwards in both cases. |
| `ListView.AppointmentList.Delete` | client/src/AppointmentList.js:143-161 | Declined confirmation changes nothing. An ok response removes the id's records and shows the new partition. A failed response sets `error` to "Failed to delete appointment" or the message and leaves the collection and lists alone. |
| `ListView.AppointmentList.Search` | client/src/AppointmentList.js:163-174 | Stores the lowered term and shows the search of the unchanged collection at `now`. |
| `ListView.AppointmentList.Toggle` | client/src/AppointmentList.js:176-182 | Stores the toggled collection and shows its partition without the search term. Term, error and loading flag are unchanged. |

## Left out

- Styled components (client/src/AppointmentList.js:7-102) and the JSX rendering (184-249): presentation only. This includes the rule that the lists show only when neither loading nor an error is set.
- The HTTP calls and `response.json()` (117-119, 148-150): replaced by the `FetchOutcome` and `DeleteOutcome` parameters. A body that is not an array (so `data.sort` throws) is covered by `FetchRejected` with its message.
- `window.confirm` (144): replaced by the `confirmed` parameter.
- React hooks, the context and the `useEffect` re-run when `addAppointment` changes (106, 113-133): framework lifecycle. Each call of `Load` stands for one run of the effect.
- Asynchrony: each handler runs as one step. The intermediate state with `isLoading` true, interleavings between handlers, and stale closures over `appointments` are not modelled.
- Dates: times are integers and one `now` is passed per handler. `handleSearch` builds a fresh `new Date()` per record, which the model does not capture. Unparseable times (NaN comparisons) are not modelled.
- `Text.Lower`: lowers ASCII letters only, because full Unicode `toLowerCase` is out of scope.
- Ids are integers compared by value. JavaScript's strict `===`/`!==` between a string id and a number id is not modelled.
- client/src/App.js, client/src/HomePage.js and client/src/LandingPage.js: routing, authentication and composition, with no list logic.
