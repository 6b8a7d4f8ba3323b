/**
 * The donor directory store: the loaded donor rows, the ids the user has
 * selected, the active filters and the sort order, and the filtered and
 * sorted view the donor list shows.
 */
module DonorStore {
  import opened Common
  import opened Records
  import opened Sorting

  /** `filters`; each one is applied only when it is truthy. */
  datatype Filters = Filters(status: Option<string>, minScore: Option<int>, search: Option<string>)

  /** `sortBy`: the four named orders, and any other value, which keeps the stored order. */
  datatype SortBy = ByScore | ByName | ByAmount | ByRecent | Unsorted

  /**
   * The keys of an `updates` object: `Some(v)` for a key present in it
   * (whose value `v` may itself be null), `None` for an absent key.
   */
  datatype DonorPatch = DonorPatch(
    id: Option<Id>,
    firstName: Option<Option<string>>,
    fullName: Option<Option<string>>,
    email: Option<Option<string>>,
    phone: Option<Option<string>>,
    status: Option<Option<string>>,
    score: Option<Option<int>>,
    previousDonationAmount: Option<Option<int>>,
    totalDonated: Option<Option<int>>,
    notes: Option<Option<string>>,
    lastContactDate: Option<Option<int>>
  )

  function Pick<T>(patched: Option<T>, current: T): T {
    if patched.Some? then patched.value else current
  }

  /** `{ ...d, ...updates }`: every key present in `updates` wins, every other key is `d`'s. */
  function Merge(d: Donor, u: DonorPatch): (r: Donor)
    ensures u == DonorPatch(None, None, None, None, None, None, None, None, None, None, None) ==> r == d
    ensures u.id.Some? ==> r.id == u.id.value
    ensures u.id.None? ==> r.id == d.id
    ensures u.firstName.Some? ==> r.firstName == u.firstName.value
    ensures u.firstName.None? ==> r.firstName == d.firstName
    ensures u.fullName.Some? ==> r.fullName == u.fullName.value
    ensures u.fullName.None? ==> r.fullName == d.fullName
    ensures u.email.Some? ==> r.email == u.email.value
    ensures u.email.None? ==> r.email == d.email
    ensures u.phone.Some? ==> r.phone == u.phone.value
    ensures u.phone.None? ==> r.phone == d.phone
    ensures u.status.Some? ==> r.status == u.status.value
    ensures u.status.None? ==> r.status == d.status
    ensures u.score.Some? ==> r.score == u.score.value
    ensures u.score.None? ==> r.score == d.score
    ensures u.previousDonationAmount.Some? ==> r.previousDonationAmount == u.previousDonationAmount.value
    ensures u.previousDonationAmount.None? ==> r.previousDonationAmount == d.previousDonationAmount
    ensures u.totalDonated.Some? ==> r.totalDonated == u.totalDonated.value
    ensures u.totalDonated.None? ==> r.totalDonated == d.totalDonated
    ensures u.notes.Some? ==> r.notes == u.notes.value
    ensures u.notes.None? ==> r.notes == d.notes
    ensures u.lastContactDate.Some? ==> r.lastContactDate == u.lastContactDate.value
    ensures u.lastContactDate.None? ==> r.lastContactDate == d.lastContactDate
  {
    Donor(Pick(u.id, d.id), Pick(u.firstName, d.firstName), Pick(u.fullName, d.fullName),
          Pick(u.email, d.email), Pick(u.phone, d.phone), Pick(u.status, d.status),
          Pick(u.score, d.score), Pick(u.previousDonationAmount, d.previousDonationAmount),
          Pick(u.totalDonated, d.totalDonated), Pick(u.notes, d.notes),
          Pick(u.lastContactDate, d.lastContactDate))
  }

  /** `donors.map(d => d.id === id ? { ...d, ...updates } : d)`. */
  function UpdateById(donors: seq<Donor>, id: Id, u: DonorPatch): (r: seq<Donor>)
    ensures |r| == |donors|
    ensures forall i :: 0 <= i < |r| ==> r[i] == if donors[i].id == id then Merge(donors[i], u) else donors[i]
  {
    seq(|donors|, i requires 0 <= i < |donors| => if donors[i].id == id then Merge(donors[i], u) else donors[i])
  }

  /** `donors.map(d => d.id)`. */
  function Ids(donors: seq<Donor>): (r: seq<Id>)
    ensures |r| == |donors|
    ensures forall i :: 0 <= i < |r| ==> r[i] == donors[i].id
  {
    seq(|donors|, i requires 0 <= i < |donors| => donors[i].id)
  }

  // ---------------------------------------------------------------------
  // Filtering

  /** The status filter: `d.status === filters.status`. */
  predicate PassesStatus(d: Donor, f: Filters) {
    StrTruthy(f.status) ==> d.status == f.status
  }

  /**
   * The score filter: `d.score >= filters.minScore`. A null score compares
   * as 0, which is what JavaScript's `>=` does with null.
   */
  predicate PassesMinScore(d: Donor, f: Filters) {
    IntTruthy(f.minScore) ==> (if d.score.Some? then d.score.value else 0) >= f.minScore.value
  }

  /** `s?.includes(t)`: false when `s` is null. */
  predicate FieldIncludes(s: Option<string>, t: string) {
    s.Some? && Contains(s.value, t)
  }

  /**
   * The search filter: the lower-cased search occurs in the lower-cased
   * full name or e-mail, or in the phone number as stored.
   */
  predicate PassesSearch(d: Donor, f: Filters) {
    StrTruthy(f.search) ==>
      var search := Lower(f.search.value);
      || (d.fullName.Some? && Contains(Lower(d.fullName.value), search))
      || (d.email.Some? && Contains(Lower(d.email.value), search))
      || FieldIncludes(d.phone, search)
  }

  predicate Passes(d: Donor, f: Filters) {
    PassesStatus(d, f) && PassesMinScore(d, f) && PassesSearch(d, f)
  }

  /** The three `filter` passes, which keep the order of the copied list. */
  function Matching(donors: seq<Donor>, f: Filters): (r: seq<Donor>)
    ensures forall i :: 0 <= i < |r| ==> Passes(r[i], f)
    ensures forall d :: multiset(r)[d] == if Passes(d, f) then multiset(donors)[d] else 0
    decreases |donors|
  {
    if donors == [] then []
    else
      assert donors == [donors[0]] + donors[1..];
      if Passes(donors[0], f) then [donors[0]] + Matching(donors[1..], f)
      else Matching(donors[1..], f)
  }

  // ---------------------------------------------------------------------
  // Sorting

  /**
   * The number the comparator subtracts for each order: `score || 0`,
   * `previous_donation_amount || 0`, `last_contact_date || 0`. Collation by
   * `localeCompare` for the name order is not modelled: that order gets a
   * constant key, like the default branch, whose comparator always returns 0.
   */
  function SortKey(order: SortBy): Donor -> int {
    match order
    case ByScore => (d: Donor) => IntOr(d.score, 0)
    case ByAmount => (d: Donor) => IntOr(d.previousDonationAmount, 0)
    case ByRecent => (d: Donor) => IntOr(d.lastContactDate, 0)
    case ByName => (d: Donor) => 0
    case Unsorted => (d: Donor) => 0
  }

  /** `getFilteredDonors()`: filter a copy of the list, then sort it. */
  function FilteredDonors(donors: seq<Donor>, f: Filters, order: SortBy): seq<Donor> {
    SortDesc(Matching(donors, f), SortKey(order))
  }

  /** What the filtered view is: exactly the passing donors, each once per stored copy, in sort order. */
  lemma FilteredDonorsSpec(donors: seq<Donor>, f: Filters, order: SortBy)
    ensures forall d :: multiset(FilteredDonors(donors, f, order))[d] == if Passes(d, f) then multiset(donors)[d] else 0
    ensures forall d :: d in FilteredDonors(donors, f, order) <==> d in donors && Passes(d, f)
    ensures SortedDesc(FilteredDonors(donors, f, order), SortKey(order))
  {
    var m := Matching(donors, f);
    SortDescPermutes(m, SortKey(order));
    SortDescSorted(m, SortKey(order));
    forall d ensures d in FilteredDonors(donors, f, order) <==> d in donors && Passes(d, f) {
      assert d in FilteredDonors(donors, f, order) <==> multiset(m)[d] > 0;
      assert d in donors <==> multiset(donors)[d] > 0;
    }
  }

  /** Each result has the filtered status, reaches the minimum score and matches the search. */
  lemma FilteredDonorsPass(donors: seq<Donor>, f: Filters, order: SortBy, i: nat)
    requires i < |FilteredDonors(donors, f, order)|
    ensures StrTruthy(f.status) ==> FilteredDonors(donors, f, order)[i].status == f.status
    ensures IntTruthy(f.minScore) ==> IntOr(FilteredDonors(donors, f, order)[i].score, 0) >= f.minScore.value
    ensures PassesSearch(FilteredDonors(donors, f, order)[i], f)
  {
    FilteredDonorsSpec(donors, f, order);
    var d := FilteredDonors(donors, f, order)[i];
    assert d in FilteredDonors(donors, f, order);
  }

  /** A falsy filter keeps everyone: with no filter set, the view is a rearrangement of all donors. */
  lemma NoFiltersKeepsAll(donors: seq<Donor>, order: SortBy)
    ensures multiset(FilteredDonors(donors, Filters(None, Some(0), Some("")), order)) == multiset(donors)
  {
    var f := Filters(None, Some(0), Some(""));
    FilteredDonorsSpec(donors, f, order);
    assert forall d :: Passes(d, f);
    assert forall d :: multiset(FilteredDonors(donors, f, order))[d] == multiset(donors)[d];
  }

  /** The score order is non-increasing in `score || 0`. */
  lemma ScoreOrder(donors: seq<Donor>, f: Filters, i: nat, j: nat)
    requires i < j < |FilteredDonors(donors, f, ByScore)|
    ensures IntOr(FilteredDonors(donors, f, ByScore)[i].score, 0) >= IntOr(FilteredDonors(donors, f, ByScore)[j].score, 0)
  {
    FilteredDonorsSpec(donors, f, ByScore);
  }

  /** The amount order is non-increasing in `previous_donation_amount || 0`. */
  lemma AmountOrder(donors: seq<Donor>, f: Filters, i: nat, j: nat)
    requires i < j < |FilteredDonors(donors, f, ByAmount)|
    ensures IntOr(FilteredDonors(donors, f, ByAmount)[i].previousDonationAmount, 0)
         >= IntOr(FilteredDonors(donors, f, ByAmount)[j].previousDonationAmount, 0)
  {
    FilteredDonorsSpec(donors, f, ByAmount);
  }

  /** Without a real order the comparator returns 0 and the stable sort keeps the stored order. */
  lemma UnsortedKeepsOrder(donors: seq<Donor>, f: Filters)
    ensures FilteredDonors(donors, f, Unsorted) == Matching(donors, f)
  {
    SortDescOfSorted(Matching(donors, f), SortKey(Unsorted));
  }

  class DonorStore {
    var donors: seq<Donor>
    var selectedDonors: seq<Id>
    var filters: Filters
    var sortBy: SortBy

    constructor ()
      ensures donors == [] && selectedDonors == []
      ensures filters == Filters(None, None, Some("")) && sortBy == ByScore
    {
      donors := [];
      selectedDonors := [];
      filters := Filters(None, None, Some(""));
      sortBy := ByScore;
    }

    method SetDonors(ds: seq<Donor>)
      modifies this
      ensures donors == ds
      ensures selectedDonors == old(selectedDonors) && filters == old(filters) && sortBy == old(sortBy)
    {
      donors := ds;
    }

    /** `addDonor(donor)`: append at the end. */
    method AddDonor(donor: Donor)
      modifies this
      ensures donors == old(donors) + [donor]
      ensures selectedDonors == old(selectedDonors) && filters == old(filters) && sortBy == old(sortBy)
    {
      donors := donors + [donor];
    }

    /** `updateDonor(id, updates)`: merge into every entry with that id; length and order kept. */
    method UpdateDonor(id: Id, updates: DonorPatch)
      modifies this
      ensures donors == UpdateById(old(donors), id, updates)
      ensures |donors| == |old(donors)|
      ensures forall i :: 0 <= i < |donors| && old(donors)[i].id != id ==> donors[i] == old(donors)[i]
      ensures selectedDonors == old(selectedDonors) && filters == old(filters) && sortBy == old(sortBy)
    {
      donors := UpdateById(donors, id, updates);
    }

    /** `deleteDonor(id)`: remove every entry with that id. */
    method DeleteDonor(id: Id)
      modifies this
      ensures donors == WithoutId(old(donors), id)
      ensures forall d :: d in donors <==> d in old(donors) && d.id != id
      ensures selectedDonors == old(selectedDonors) && filters == old(filters) && sortBy == old(sortBy)
    {
      donors := WithoutId(donors, id);
    }

    /** `selectDonor(id)`: append the id, even when it is already selected. */
    method SelectDonor(id: Id)
      modifies this
      ensures selectedDonors == old(selectedDonors) + [id]
      ensures donors == old(donors) && filters == old(filters) && sortBy == old(sortBy)
    {
      selectedDonors := selectedDonors + [id];
    }

    /** `deselectDonor(id)`: remove every occurrence of the id. */
    method DeselectDonor(id: Id)
      modifies this
      ensures selectedDonors == RemoveAll(old(selectedDonors), id)
      ensures id !in selectedDonors
      ensures donors == old(donors) && filters == old(filters) && sortBy == old(sortBy)
    {
      selectedDonors := RemoveAll(selectedDonors, id);
    }

    /** `selectAll()`: the ids of all donors, in list order. */
    method SelectAll()
      modifies this
      ensures selectedDonors == Ids(donors)
      ensures donors == old(donors) && filters == old(filters) && sortBy == old(sortBy)
    {
      selectedDonors := Ids(donors);
    }

    method DeselectAll()
      modifies this
      ensures selectedDonors == []
      ensures donors == old(donors) && filters == old(filters) && sortBy == old(sortBy)
    {
      selectedDonors := [];
    }

    method SetFilters(f: Filters)
      modifies this
      ensures filters == f
      ensures donors == old(donors) && selectedDonors == old(selectedDonors) && sortBy == old(sortBy)
    {
      filters := f;
    }

    method SetSortBy(order: SortBy)
      modifies this
      ensures sortBy == order
      ensures donors == old(donors) && selectedDonors == old(selectedDonors) && filters == old(filters)
    {
      sortBy := order;
    }

    /** `getFilteredDonors()`: reads the store and changes nothing. */
    method GetFilteredDonors() returns (r: seq<Donor>)
      ensures r == FilteredDonors(donors, filters, sortBy)
      ensures forall d :: d in r <==> d in donors && Passes(d, filters)
      ensures multiset(r) <= multiset(donors)
      ensures SortedDesc(r, SortKey(sortBy))
    {
      r := FilteredDonors(donors, filters, sortBy);
      FilteredDonorsSpec(donors, filters, sortBy);
      assert forall d :: multiset(r)[d] <= multiset(donors)[d];
    }
  }
}
