/** The provider's "My Appointments" screen: the tab filter, the badge counts gathered
    in one pass, and the action buttons of each appointment card. */
module ProviderAppointments {
  import opened Appointments
  import opened Seqs

  /** The tab predicate. `today` is the local day starting at `midnight`; `all`, and
      every key the screen does not know (`past` and `cancelled` among them), keep the
      record. */
  predicate Matches(b: Booking, key: FilterKey, now: Instant, midnight: Instant) {
    match key
    case PendingKey => b.status == Pending
    case ConfirmedKey => b.status == Confirmed
    case Today => InDay(b.appointmentDate, midnight)
    case Upcoming => b.appointmentDate >= now && b.status != Cancelled && b.status != Completed
    case CompletedKey => b.status == Completed
    case _ => true
  }

  /** The tabs this screen filters on; every other key shows the whole list. */
  predicate Tabbed(key: FilterKey) {
    key.PendingKey? || key.ConfirmedKey? || key.CompletedKey? || key.Today? || key.Upcoming?
  }

  /** The predicate handed to `filter` for the selected tab. */
  function Keep(key: FilterKey, now: Instant, midnight: Instant): Booking -> bool {
    (b: Booking) => Matches(b, key, now, midnight)
  }

  /** `filteredAppointments` for the selected tab: the records the tab's predicate
      accepts, in their original order; a key the screen does not filter on shows the
      whole list. */
  function FilterAppointments(s: seq<Booking>, key: FilterKey, now: Instant, midnight: Instant)
    : (r: seq<Booking>)
    ensures Subseq(r, s)
    ensures forall b :: b in r <==> b in s && Matches(b, key, now, midnight)
    ensures !Tabbed(key) ==> r == s
  {
    var r := Filter(s, Keep(key, now, midnight));
    FilterIsSubseq(s, Keep(key, now, midnight));
    assert !Tabbed(key) ==> r == s by {
      if !Tabbed(key) {
        FilterKeepsAll(s, Keep(key, now, midnight));
      }
    }
    r
  }

  /** What each tab lists, in the screen's terms. */
  lemma TabContents(s: seq<Booking>, key: FilterKey, now: Instant, midnight: Instant)
    ensures key == PendingKey ==>
      forall b :: b in FilterAppointments(s, key, now, midnight) <==> b in s && b.status == Pending
    ensures key == ConfirmedKey ==>
      forall b :: b in FilterAppointments(s, key, now, midnight) <==> b in s && b.status == Confirmed
    ensures key == CompletedKey ==>
      forall b :: b in FilterAppointments(s, key, now, midnight) <==> b in s && b.status == Completed
    ensures key == Today ==>
      forall b :: b in FilterAppointments(s, key, now, midnight)
        <==> b in s && midnight <= b.appointmentDate < midnight + DAY_MS
    ensures key == Upcoming ==>
      forall b :: b in FilterAppointments(s, key, now, midnight)
        <==> b in s && b.appointmentDate >= now && !Terminal(b.status)
  {
  }

  /** The tab badges. */
  datatype FilterCounts = FilterCounts(
    all: nat, pending: nat, confirmed: nat, completed: nat, today: nat, upcoming: nat)

  function Bump(b: bool): nat {
    if b then 1 else 0
  }

  /** `getFilterCounts`: one `reduce` over the list, each counter guarded by its own
      independent `if`. */
  function GetFilterCounts(s: seq<Booking>, now: Instant, midnight: Instant): (c: FilterCounts)
    ensures c.all == |s|
    ensures c.pending + c.confirmed + c.completed <= c.all
    ensures c.upcoming <= c.all && c.today <= c.all
    ensures c.upcoming + c.completed <= c.all
  {
    if |s| == 0 then FilterCounts(0, 0, 0, 0, 0, 0)
    else
      var apt := s[|s| - 1];
      var acc := GetFilterCounts(s[..|s| - 1], now, midnight);
      FilterCounts(
        acc.all + 1,
        acc.pending + Bump(apt.status == Pending),
        acc.confirmed + Bump(apt.status == Confirmed),
        acc.completed + Bump(apt.status == Completed),
        acc.today + Bump(InDay(apt.appointmentDate, midnight)),
        acc.upcoming + Bump(apt.appointmentDate >= now && apt.status != Cancelled && apt.status != Completed))
  }

  /** The badge shown on the tab for `key`. */
  function Badge(c: FilterCounts, key: FilterKey): nat {
    match key
    case PendingKey => c.pending
    case ConfirmedKey => c.confirmed
    case CompletedKey => c.completed
    case Today => c.today
    case Upcoming => c.upcoming
    case _ => c.all
  }

  /** One more record moves a badge by one exactly when the record matches its tab. */
  lemma BadgeSnoc(s: seq<Booking>, now: Instant, midnight: Instant, key: FilterKey)
    requires |s| > 0
    requires Tabbed(key)
    ensures Badge(GetFilterCounts(s, now, midnight), key)
         == Badge(GetFilterCounts(s[..|s| - 1], now, midnight), key)
          + Bump(Matches(s[|s| - 1], key, now, midnight))
  {
  }

  /** Each badge equals the length of the list its tab shows, at the same reference
      time: the one-pass counts and the filter agree. */
  lemma {:induction false} BadgeMatchesFilter(s: seq<Booking>, now: Instant, midnight: Instant, key: FilterKey)
    ensures Badge(GetFilterCounts(s, now, midnight), key) == |FilterAppointments(s, key, now, midnight)|
  {
    if |s| > 0 && Tabbed(key) {
      var init, last := s[..|s| - 1], s[|s| - 1];
      var keep := Keep(key, now, midnight);
      BadgeMatchesFilter(init, now, midnight, key);
      assert s == init + [last];
      Seqs.FilterSnoc(init, last, keep);
      BadgeSnoc(s, now, midnight, key);
    }
  }

  /** The buttons of a card: Confirm and Decline for a pending appointment, Mark
      Complete for a confirmed one, none otherwise. */
  function Actions(status: Status): (r: seq<Status>)
    ensures forall t :: t in r <==> Allowed(status, t) && !(status == Confirmed && t == Cancelled)
    ensures Terminal(status) ==> r == []
  {
    match status
    case Pending => [Confirmed, Cancelled]
    case Confirmed => [Completed]
    case _ => []
  }
}
