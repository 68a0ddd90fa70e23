/** The doctor's "Manage Appointments" screen: the local list updates after a
    successful status or notes request, the status/date filter with its chronological
    sort, the statistics strip, and the per-status action buttons. */
module ManageAppointments {
  import opened Appointments
  import opened Seqs
  import opened Ordering

  /** After the status request succeeds: every record with the given `_id` takes the new
      status; everything else stays as it was. */
  function SetStatus(s: seq<Visit>, id: string, status: Status): (r: seq<Visit>)
    ensures |r| == |s|
    ensures forall i :: 0 <= i < |s| ==> r[i] == s[i].(status := r[i].status)
    ensures forall i :: 0 <= i < |s| ==> r[i].status == if s[i].id == id then status else s[i].status
    ensures forall x :: x in r && x.id == id ==> x.status == status
  {
    seq(|s|, i requires 0 <= i < |s| => if s[i].id == id then s[i].(status := status) else s[i])
  }

  /** After the notes request succeeds: every record with the given `_id` takes the new
      notes; everything else stays as it was. */
  function SetNotes(s: seq<Visit>, id: string, notes: string): (r: seq<Visit>)
    ensures |r| == |s|
    ensures forall i :: 0 <= i < |s| ==> r[i] == s[i].(notes := r[i].notes)
    ensures forall i :: 0 <= i < |s| ==> r[i].notes == if s[i].id == id then notes else s[i].notes
  {
    seq(|s|, i requires 0 <= i < |s| => if s[i].id == id then s[i].(notes := notes) else s[i])
  }

  /** Applying the same status update twice is applying it once. */
  lemma SetStatusIdempotent(s: seq<Visit>, id: string, status: Status)
    ensures SetStatus(SetStatus(s, id, status), id, status) == SetStatus(s, id, status)
  {
  }

  /** The status filter of the select box: `all` or one status. */
  datatype StatusFilter = AllStatuses | OnlyStatus(status: Status)

  /** `apt => apt.status === status` */
  function HasStatus(status: Status): Visit -> bool {
    (apt: Visit) => apt.status == status
  }

  /** `apt => apt.date === date` */
  function OnDate(date: string): Visit -> bool {
    (apt: Visit) => apt.date == date
  }

  predicate PassesFilters(v: Visit, filter: StatusFilter, dateFilter: string) {
    && (filter.OnlyStatus? ==> v.status == filter.status)
    && (dateFilter != "" ==> v.date == dateFilter)
  }

  /** The two filtering steps of `getFilteredAppointments`, before sorting. */
  function Select(s: seq<Visit>, filter: StatusFilter, dateFilter: string): (r: seq<Visit>)
    ensures forall x :: multiset(r)[x] == if PassesFilters(x, filter, dateFilter) then multiset(s)[x] else 0
    ensures forall i :: 0 <= i < |r| ==> PassesFilters(r[i], filter, dateFilter)
    ensures filter == AllStatuses && dateFilter == "" ==> r == s
  {
    var byStatus := if filter.OnlyStatus? then Filter(s, HasStatus(filter.status)) else s;
    assert forall x :: (multiset(byStatus)[x]
      == if filter.OnlyStatus? ==> x.status == filter.status then multiset(s)[x] else 0) by {
      if filter.OnlyStatus? {
        FilterMultiset(s, HasStatus(filter.status));
      }
    }
    if dateFilter != "" then FilterMultiset(byStatus, OnDate(dateFilter)); Filter(byStatus, OnDate(dateFilter))
    else byStatus
  }

  /** `dateTimeA - dateTimeB <= 0`: the comparator of the chronological sort. */
  predicate EarlierOrSame(a: Visit, b: Visit) {
    a.scheduledAt <= b.scheduledAt
  }

  /** `getFilteredAppointments`: keep the records of the selected status (unless `all`),
      then those on the selected date (unless the date box is empty), then sort them
      chronologically. */
  function FilteredAppointments(s: seq<Visit>, filter: StatusFilter, dateFilter: string)
    : (r: seq<Visit>)
    ensures forall x :: multiset(r)[x] == if PassesFilters(x, filter, dateFilter) then multiset(s)[x] else 0
    ensures Sorted(r, EarlierOrSame)
    ensures forall i :: 0 <= i < |r| ==> PassesFilters(r[i], filter, dateFilter)
    ensures filter == AllStatuses && dateFilter == "" ==> multiset(r) == multiset(s)
  {
    var picked := Select(s, filter, dateFilter);
    assert TotalPreorder(EarlierOrSame);
    var r := Sort(picked, EarlierOrSame);
    SortKeepsMembers(picked, EarlierOrSame);
    assert forall i :: 0 <= i < |r| ==> PassesFilters(r[i], filter, dateFilter) by {
      forall i | 0 <= i < |r| ensures PassesFilters(r[i], filter, dateFilter) {
        assert r[i] in picked;
      }
    }
    r
  }

  /** `isUpcoming`: strictly after now, whatever the status. It only greys out the card. */
  predicate IsUpcoming(v: Visit, now: Instant) {
    v.scheduledAt > now
  }

  /** Greying out depends on the scheduled instant alone: changing the status of a card
      never changes it. */
  lemma GreyingIgnoresStatus(v: Visit, now: Instant, status: Status)
    ensures IsUpcoming(v.(status := status), now) == IsUpcoming(v, now)
  {
  }

  /** The statistics strip. */
  datatype Stats = Stats(
    total: nat, pending: nat, confirmed: nat, completed: nat, cancelled: nat,
    todaysAppointments: nat)

  /** `getAppointmentStats`: one `filter(...).length` per status, and the records whose
      `date` string is today's ISO date. */
  function AppointmentStats(s: seq<Visit>, today: string): (st: Stats)
    ensures st.total == |s|
    ensures st.pending == |Filter(s, HasStatus(Pending))|
    ensures st.confirmed == |Filter(s, HasStatus(Confirmed))|
    ensures st.completed == |Filter(s, HasStatus(Completed))|
    ensures st.cancelled == |Filter(s, HasStatus(Cancelled))|
    ensures st.todaysAppointments == |Filter(s, OnDate(today))|
    ensures st.todaysAppointments <= st.total
  {
    CountIsFilterLength(s, HasStatus(Pending));
    CountIsFilterLength(s, HasStatus(Confirmed));
    CountIsFilterLength(s, HasStatus(Completed));
    CountIsFilterLength(s, HasStatus(Cancelled));
    CountIsFilterLength(s, OnDate(today));
    Stats(
      |s|,
      Count(s, HasStatus(Pending)),
      Count(s, HasStatus(Confirmed)),
      Count(s, HasStatus(Completed)),
      Count(s, HasStatus(Cancelled)),
      Count(s, OnDate(today)))
  }

  /** The number of records whose status is none of the four. */
  function UnknownCount(s: seq<Visit>): nat {
    Count(s, (apt: Visit) => apt.status.Other?)
  }

  /** The four status counts and the unknown ones partition the list: the four add up to
      at most the total, and exactly to it when every status is known. */
  lemma {:induction false} StatusCountsPartition(s: seq<Visit>, today: string)
    ensures var st := AppointmentStats(s, today);
      st.pending + st.confirmed + st.completed + st.cancelled + UnknownCount(s) == st.total
  {
    if |s| > 0 {
      StatusCountsPartition(s[1..], today);
    }
  }

  lemma StatusCountsBounded(s: seq<Visit>, today: string)
    ensures var st := AppointmentStats(s, today);
      st.pending + st.confirmed + st.completed + st.cancelled <= st.total
    ensures (forall i :: 0 <= i < |s| ==> Known(s[i].status)) ==>
      var st := AppointmentStats(s, today);
      st.pending + st.confirmed + st.completed + st.cancelled == st.total
  {
    StatusCountsPartition(s, today);
  }

  /** The Today card counts exactly the records whose `date` is today's date string. */
  lemma {:induction false} TodayCountIsDateFilter(s: seq<Visit>, today: string)
    requires today != ""
    ensures AppointmentStats(s, today).todaysAppointments
         == |FilteredAppointments(s, AllStatuses, today)|
  {
    var r := FilteredAppointments(s, AllStatuses, today);
    var f := Filter(s, OnDate(today));
    CountIsFilterLength(s, OnDate(today));
    assert multiset(r) == multiset(f);
    assert |r| == |multiset(r)| == |multiset(f)| == |f|;
  }

  /** Editing notes never changes any statistic. */
  lemma {:induction false} NotesDoNotAffectStats(s: seq<Visit>, id: string, notes: string, today: string)
    ensures AppointmentStats(SetNotes(s, id, notes), today) == AppointmentStats(s, today)
  {
    var t := SetNotes(s, id, notes);
    CountPointwise(t, s, HasStatus(Pending));
    CountPointwise(t, s, HasStatus(Confirmed));
    CountPointwise(t, s, HasStatus(Completed));
    CountPointwise(t, s, HasStatus(Cancelled));
    CountPointwise(t, s, OnDate(today));
  }

  /** Confirm and Cancel for a pending appointment, Complete and Cancel for a confirmed
      one: exactly the allowed transitions. */
  function Actions(status: Status): (r: seq<Status>)
    ensures forall t :: t in r <==> Allowed(status, t)
  {
    match status
    case Pending => [Confirmed, Cancelled]
    case Confirmed => [Completed, Cancelled]
    case _ => []
  }
}
