/** The user's dashboard: the statistics reducer and the preview of the next three
    appointments. */
module UserDashboard {
  import opened Appointments
  import opened Seqs
  import opened Ordering

  datatype Stats = Stats(total: nat, upcoming: nat, completed: nat, cancelled: nat)

  /** Which statistic a record adds to: completed, else cancelled, else upcoming when its
      date is not before now, else none. */
  datatype Bucket = CompletedBucket | CancelledBucket | UpcomingBucket | NoBucket

  function BucketOf(b: Booking, now: Instant): Bucket {
    if b.status == Completed then CompletedBucket
    else if b.status == Cancelled then CancelledBucket
    else if b.appointmentDate >= now then UpcomingBucket
    else NoBucket
  }

  /** The `reduce` callback: `total` for every record, then the record's bucket. A
      completed record raises `completed`, a cancelled one `cancelled`, and any other
      one not before now `upcoming`; no counter ever falls. */
  function Tally(acc: Stats, apt: Booking, now: Instant): (next: Stats)
    ensures next.total == acc.total + 1
    ensures next.completed == acc.completed + (if apt.status == Completed then 1 else 0)
    ensures next.cancelled == acc.cancelled + (if apt.status == Cancelled then 1 else 0)
    ensures next.upcoming == acc.upcoming + (if !Terminal(apt.status) && apt.appointmentDate >= now then 1 else 0)
    ensures next.completed + next.cancelled + next.upcoming <= acc.completed + acc.cancelled + acc.upcoming + 1
  {
    var counted := acc.(total := acc.total + 1);
    if apt.status == Completed then counted.(completed := counted.completed + 1)
    else if apt.status == Cancelled then counted.(cancelled := counted.cancelled + 1)
    else if apt.appointmentDate >= now then counted.(upcoming := counted.upcoming + 1)
    else counted
  }

  /** The statistics `reduce` over the whole list. Each record adds to `total` and to at
      most one of the other three. */
  function ComputeStats(s: seq<Booking>, now: Instant): (st: Stats)
    ensures st.total == |s|
    ensures st.completed + st.cancelled + st.upcoming <= st.total
  {
    if |s| == 0 then Stats(0, 0, 0, 0)
    else Tally(ComputeStats(s[..|s| - 1], now), s[|s| - 1], now)
  }

  /** `apt => aptDate >= now && apt.status !== 'cancelled'` */
  function ShownAsUpcoming(now: Instant): Booking -> bool {
    (apt: Booking) => apt.appointmentDate >= now && apt.status != Cancelled
  }

  /** `apt => BucketOf(apt, now) == UpcomingBucket`: what the Upcoming statistic counts. */
  function CountedAsUpcoming(now: Instant): Booking -> bool {
    (apt: Booking) => BucketOf(apt, now) == UpcomingBucket
  }

  /** The Upcoming statistic counts the records that are neither completed nor cancelled
      and not before now. */
  lemma UpcomingStatMeaning(s: seq<Booking>, now: Instant)
    ensures ComputeStats(s, now).upcoming == |Filter(s, CountedAsUpcoming(now))|
    ensures forall b :: b in Filter(s, CountedAsUpcoming(now)) <==>
      b in s && !Terminal(b.status) && b.appointmentDate >= now
  {
    UpcomingStatIsFilter(s, now);
  }

  lemma {:induction false} UpcomingStatIsFilter(s: seq<Booking>, now: Instant)
    ensures ComputeStats(s, now).upcoming == |Filter(s, CountedAsUpcoming(now))|
  {
    if |s| > 0 {
      UpcomingStatIsFilter(s[..|s| - 1], now);
      FilterLengthSnoc(s, CountedAsUpcoming(now));
    }
  }

  /** `apt => apt.status === status` */
  function StatusIs(status: Status): Booking -> bool {
    (apt: Booking) => apt.status == status
  }

  /** The Completed and Cancelled statistics count exactly the records of that status,
      whatever their date. */
  lemma {:induction false} TerminalStatsAreCounts(s: seq<Booking>, now: Instant)
    ensures ComputeStats(s, now).completed == Count(s, StatusIs(Completed))
    ensures ComputeStats(s, now).cancelled == Count(s, StatusIs(Cancelled))
  {
    TerminalStatsAreFilters(s, now);
    CountIsFilterLength(s, StatusIs(Completed));
    CountIsFilterLength(s, StatusIs(Cancelled));
  }

  lemma {:induction false} TerminalStatsAreFilters(s: seq<Booking>, now: Instant)
    ensures ComputeStats(s, now).completed == |Filter(s, StatusIs(Completed))|
    ensures ComputeStats(s, now).cancelled == |Filter(s, StatusIs(Cancelled))|
  {
    if |s| > 0 {
      TerminalStatsAreFilters(s[..|s| - 1], now);
      FilterLengthSnoc(s, StatusIs(Completed));
      FilterLengthSnoc(s, StatusIs(Cancelled));
    }
  }

  predicate EarlierOrSame(a: Booking, b: Booking) {
    a.appointmentDate <= b.appointmentDate
  }

  /** `upcomingAppointments`: the records not before now and not cancelled, soonest
      first, cut to three. It shows three of them, or all when there are fewer, each
      taken from the list, and a record earlier than a shown one is shown with every
      copy it has in the list. */
  function UpcomingPreview(s: seq<Booking>, now: Instant): (r: seq<Booking>)
    ensures |r| == if Count(s, ShownAsUpcoming(now)) < 3 then Count(s, ShownAsUpcoming(now)) else 3
    ensures multiset(r) <= multiset(s)
    ensures forall x :: x in r ==> x in s && x.appointmentDate >= now && x.status != Cancelled
    ensures Sorted(r, EarlierOrSame)
    ensures forall x, i ::
      (x in s && x.appointmentDate >= now && x.status != Cancelled
       && 0 <= i < |r| && x.appointmentDate < r[i].appointmentDate) ==>
      x in r && multiset(r)[x] == multiset(s)[x]
  {
    assert TotalPreorder(EarlierOrSame);
    var r := TopN(s, ShownAsUpcoming(now), EarlierOrSame, 3);
    assert forall x, i ::
      (x in s && x.appointmentDate >= now && x.status != Cancelled
       && 0 <= i < |r| && x.appointmentDate < r[i].appointmentDate) ==>
      x in r && multiset(r)[x] == multiset(s)[x]
    by {
      forall x, i | x in s && x.appointmentDate >= now && x.status != Cancelled
                    && 0 <= i < |r| && x.appointmentDate < r[i].appointmentDate
        ensures x in r && multiset(r)[x] == multiset(s)[x]
      {
        assert ShownAsUpcoming(now)(x) && !EarlierOrSame(r[i], x);
        TopNKeepsCopies(s, ShownAsUpcoming(now), EarlierOrSame, 3, x, i);
      }
    }
    r
  }

  /** The preview can show a record the Upcoming statistic does not count: a completed
      appointment whose date has not passed. */
  lemma PreviewCanShowUncountedRecord(b: Booking, now: Instant)
    requires b.status == Completed && b.appointmentDate >= now
    ensures UpcomingPreview([b], now) == [b]
    ensures ComputeStats([b], now).upcoming == 0
  {
    assert [b][..0] == [];
  }
}
