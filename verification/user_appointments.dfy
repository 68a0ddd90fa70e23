/** The user's "My Appointments" screen: the tab filter, the tab badges, and the rule
    that decides whether the Cancel button is offered. */
module UserAppointments {
  import opened Appointments
  import opened Seqs

  /** The tab predicate: `upcoming`, `past` and `cancelled` are recognised; every other
      key, `all` included, keeps the record. */
  predicate Matches(b: Booking, key: FilterKey, now: Instant) {
    match key
    case Upcoming => b.appointmentDate >= now && b.status != Cancelled
    case Past => b.appointmentDate < now || b.status == Completed
    case CancelledKey => b.status == Cancelled
    case _ => true
  }

  /** The tabs this screen filters on; every other key shows the whole list. */
  predicate Tabbed(key: FilterKey) {
    key.Upcoming? || key.Past? || key.CancelledKey?
  }

  /** `filteredAppointments` for the selected tab at time `now`. */
  function FilterAppointments(s: seq<Booking>, key: FilterKey, now: Instant): (r: seq<Booking>)
    ensures Subseq(r, s)
    ensures forall x :: multiset(r)[x] == if Matches(x, key, now) then multiset(s)[x] else 0
    ensures key == Upcoming ==>
      forall b :: b in r <==> b in s && b.appointmentDate >= now && b.status != Cancelled
    ensures key == Past ==>
      forall b :: b in r <==> b in s && (b.appointmentDate < now || b.status == Completed)
    ensures key == CancelledKey ==> forall b :: b in r <==> b in s && b.status == Cancelled
    ensures !Tabbed(key) ==> r == s
    ensures key == Upcoming ==> forall i :: 0 <= i < |r| ==> r[i].status != Cancelled
  {
    var keep := b => Matches(b, key, now);
    var r := Filter(s, keep);
    FilterIsSubseq(s, keep);
    FilterMultiset(s, keep);
    assert !Tabbed(key) ==> r == s by {
      if !Tabbed(key) {
        FilterKeepsAll(s, keep);
      }
    }
    r
  }

  /** `canCancelAppointment`: the hours until the appointment are computed as a real
      quotient and must exceed 24, and the status must be pending or confirmed. */
  function CanCancel(b: Booking, now: Instant): (ok: bool)
    ensures ok <==> (b.status == Pending || b.status == Confirmed) && b.appointmentDate - now > DAY_MS
    ensures Terminal(b.status) ==> !ok
  {
    var hoursDiff := (b.appointmentDate - now) as real / HOUR_MS as real;
    (b.status == Pending || b.status == Confirmed) && hoursDiff > 24.0
  }

  /** The four badges of the tab bar. */
  datatype TabCounts = TabCounts(all: nat, upcoming: nat, past: nat, cancelled: nat)

  /** The badge numbers, each written in the screen with its own inline predicate. */
  function CountTabs(s: seq<Booking>, now: Instant): (c: TabCounts)
    ensures c.all == |s|
    ensures c.upcoming <= c.all && c.past <= c.all && c.cancelled <= c.all
  {
    TabCounts(
      |s|,
      Count(s, (apt: Booking) => apt.appointmentDate >= now && apt.status != Cancelled),
      Count(s, (apt: Booking) => apt.appointmentDate < now || apt.status == Completed),
      Count(s, (apt: Booking) => apt.status == Cancelled))
  }

  /** Each badge counts exactly the records its tab would list. */
  lemma TabCountsMatchFilters(s: seq<Booking>, now: Instant)
    ensures CountTabs(s, now).all == |FilterAppointments(s, All, now)|
    ensures CountTabs(s, now).upcoming == |FilterAppointments(s, Upcoming, now)|
    ensures CountTabs(s, now).past == |FilterAppointments(s, Past, now)|
    ensures CountTabs(s, now).cancelled == |FilterAppointments(s, CancelledKey, now)|
  {
    CountAgrees(s, now, Upcoming);
    CountAgrees(s, now, Past);
    CountAgrees(s, now, CancelledKey);
  }

  lemma {:induction false} CountAgrees(s: seq<Booking>, now: Instant, key: FilterKey)
    requires Tabbed(key)
    ensures key == Upcoming ==> CountTabs(s, now).upcoming == |FilterAppointments(s, key, now)|
    ensures key == Past ==> CountTabs(s, now).past == |FilterAppointments(s, key, now)|
    ensures key == CancelledKey ==> CountTabs(s, now).cancelled == |FilterAppointments(s, key, now)|
  {
    if |s| > 0 {
      CountAgrees(s[1..], now, key);
    }
  }

  /** No appointment falls outside every tab: each is upcoming, past or cancelled. */
  lemma EveryRecordHasATab(s: seq<Booking>, now: Instant, b: Booking)
    requires b in s
    ensures b in FilterAppointments(s, Upcoming, now)
         || b in FilterAppointments(s, Past, now)
         || b in FilterAppointments(s, CancelledKey, now)
  {
  }

  /** A completed appointment whose date is still ahead is listed under both Upcoming
      and Past. */
  lemma CompletedFutureIsInBothTabs(s: seq<Booking>, now: Instant, b: Booking)
    requires b in s && b.status == Completed && b.appointmentDate >= now
    ensures b in FilterAppointments(s, Upcoming, now) && b in FilterAppointments(s, Past, now)
  {
  }

  /** Exactly one day ahead is not enough to cancel; one millisecond more is. */
  lemma CancelBoundary(b: Booking, now: Instant)
    requires b.status == Pending || b.status == Confirmed
    ensures !CanCancel(b.(appointmentDate := now + DAY_MS), now)
    ensures CanCancel(b.(appointmentDate := now + DAY_MS + 1), now)
  {
  }
}
