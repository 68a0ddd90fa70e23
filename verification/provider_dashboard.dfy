/** The provider's dashboard: the statistics reducer and the "today" preview list of at
    most five appointments ordered by start time. Its appointment cards offer the same
    buttons as the provider appointments screen (`ProviderAppointments.Actions`). */
module ProviderDashboard {
  import opened Wrappers
  import opened Appointments
  import opened Seqs
  import opened Ordering
  import ProviderAppointments

  datatype Stats = Stats(total: nat, pending: nat, confirmed: nat, completed: nat, today: nat)

  /** The `reduce` callback: `total` for every record, then an else-if chain over the
      status, and `today` for a record in the day starting at `midnight`. Each status
      counter rises exactly for its own status, and no counter ever falls. */
  function Tally(acc: Stats, apt: Booking, midnight: Instant): (next: Stats)
    ensures next.total == acc.total + 1
    ensures next.pending == acc.pending + (if apt.status == Pending then 1 else 0)
    ensures next.confirmed == acc.confirmed + (if apt.status == Confirmed then 1 else 0)
    ensures next.completed == acc.completed + (if apt.status == Completed then 1 else 0)
    ensures next.pending + next.confirmed + next.completed <= acc.pending + acc.confirmed + acc.completed + 1
    ensures next.today == acc.today + (if InDay(apt.appointmentDate, midnight) then 1 else 0)
  {
    var counted := acc.(total := acc.total + 1);
    var byStatus :=
      if apt.status == Pending then counted.(pending := counted.pending + 1)
      else if apt.status == Confirmed then counted.(confirmed := counted.confirmed + 1)
      else if apt.status == Completed then counted.(completed := counted.completed + 1)
      else counted;
    if InDay(apt.appointmentDate, midnight) then byStatus.(today := byStatus.today + 1) else byStatus
  }

  /** The statistics `reduce` over the whole list, from the zero record. */
  function ComputeStats(s: seq<Booking>, midnight: Instant): (st: Stats)
    ensures st.total == |s|
    ensures st.pending + st.confirmed + st.completed <= st.total
    ensures st.today <= st.total
  {
    if |s| == 0 then Stats(0, 0, 0, 0, 0)
    else Tally(ComputeStats(s[..|s| - 1], midnight), s[|s| - 1], midnight)
  }

  /** `apt => aptDate >= today && aptDate < tomorrow` */
  function InDayOf(midnight: Instant): Booking -> bool {
    (apt: Booking) => InDay(apt.appointmentDate, midnight)
  }

  /** The sort key: `timeSlot?.start`, or "00:00" when it is absent or empty. */
  function StartKey(b: Booking): string {
    var t := b.start.GetOr("");
    if t == "" then "00:00" else t
  }

  /** `timeA.localeCompare(timeB) <= 0` */
  predicate StartsNoLater(a: Booking, b: Booking) {
    TextLe(StartKey(a), StartKey(b))
  }

  lemma StartsNoLaterIsTotal()
    ensures TotalPreorder(StartsNoLater)
  {
    TextLeTotalPreorder();
  }

  /** `todayAppointments`: today's records, ordered by start time, cut to five. The five
      shown start no later than any of the day's records left out, and each is taken
      from the list. */
  function TodayAppointments(s: seq<Booking>, midnight: Instant): (r: seq<Booking>)
    ensures |r| == if Count(s, InDayOf(midnight)) < 5 then Count(s, InDayOf(midnight)) else 5
    ensures |r| <= 5
    ensures forall x :: x in r ==> x in s && midnight <= x.appointmentDate < midnight + DAY_MS
    ensures Sorted(r, StartsNoLater)
    ensures multiset(r) <= multiset(s)
    ensures forall x, i ::
      (x in s && midnight <= x.appointmentDate < midnight + DAY_MS
       && 0 <= i < |r| && !StartsNoLater(r[i], x)) ==> x in r
  {
    StartsNoLaterIsTotal();
    var r := TopN(s, InDayOf(midnight), StartsNoLater, 5);
    assert forall x, i ::
      (x in s && midnight <= x.appointmentDate < midnight + DAY_MS
       && 0 <= i < |r| && !StartsNoLater(r[i], x)) ==> x in r
    by {
      forall x, i | x in s && midnight <= x.appointmentDate < midnight + DAY_MS
                    && 0 <= i < |r| && !StartsNoLater(r[i], x)
        ensures x in r
      {
        assert InDayOf(midnight)(x);
        TopNKeepsCopies(s, InDayOf(midnight), StartsNoLater, 5, x, i);
      }
    }
    r
  }

  /** A record of the day that starts strictly before a shown one is shown with every
      copy it has in the list: the cut to five drops only records starting no earlier
      than all the shown ones. */
  lemma TodayPreviewKeepsCopies(s: seq<Booking>, midnight: Instant)
    ensures forall x, i ::
      (x in s && midnight <= x.appointmentDate < midnight + DAY_MS
       && 0 <= i < |TodayAppointments(s, midnight)|
       && !StartsNoLater(TodayAppointments(s, midnight)[i], x)) ==>
      multiset(TodayAppointments(s, midnight))[x] == multiset(s)[x]
  {
    StartsNoLaterIsTotal();
    var r := TodayAppointments(s, midnight);
    forall x, i | x in s && midnight <= x.appointmentDate < midnight + DAY_MS
                  && 0 <= i < |r| && !StartsNoLater(r[i], x)
      ensures multiset(r)[x] == multiset(s)[x]
    {
      assert InDayOf(midnight)(x);
      TopNKeepsCopies(s, InDayOf(midnight), StartsNoLater, 5, x, i);
    }
  }

  /** The preview holds five records, or every record of the day when there are fewer:
      its length is the smaller of five and the Today statistic. */
  lemma {:induction false} PreviewLength(s: seq<Booking>, midnight: Instant)
    ensures |TodayAppointments(s, midnight)|
         == if ComputeStats(s, midnight).today < 5 then ComputeStats(s, midnight).today else 5
  {
    TodayStatIsDayFilter(s, midnight);
  }

  lemma {:induction false} TodayStatIsDayFilter(s: seq<Booking>, midnight: Instant)
    ensures ComputeStats(s, midnight).today == |Filter(s, InDayOf(midnight))|
  {
    if |s| > 0 {
      TodayStatIsDayFilter(s[..|s| - 1], midnight);
      FilterLengthSnoc(s, InDayOf(midnight));
    }
  }

  /** The dashboard's else-if chain and the appointments screen's independent `if`s give
      the same pending, confirmed, completed and today numbers for the same list. */
  lemma {:induction false} AgreesWithAppointmentsScreen(s: seq<Booking>, now: Instant, midnight: Instant)
    ensures var st := ComputeStats(s, midnight);
      var c := ProviderAppointments.GetFilterCounts(s, now, midnight);
      st.total == c.all && st.pending == c.pending && st.confirmed == c.confirmed
      && st.completed == c.completed && st.today == c.today
  {
    if |s| > 0 {
      AgreesWithAppointmentsScreen(s[..|s| - 1], now, midnight);
    }
  }
}
