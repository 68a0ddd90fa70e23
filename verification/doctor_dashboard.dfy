/** The doctor's dashboard: the upcoming and past sections, the ten-card cut of the
    past section, the local status update and the action buttons. `today` is the ISO
    date string the screen compares `date` with, as text. */
module DoctorDashboard {
  import opened Appointments
  import opened Seqs
  import opened Ordering
  import ManageAppointments

  /** Pending or confirmed, on or after today (`apt.date >= today`, that is not
      `apt.date < today`). */
  predicate IsUpcoming(v: Visit, today: string) {
    (v.status == Pending || v.status == Confirmed) && !TextLt(v.date, today)
  }

  /** Before today, or already completed or cancelled. */
  predicate IsPast(v: Visit, today: string) {
    TextLt(v.date, today) || v.status == Completed || v.status == Cancelled
  }

  function UpcomingOn(today: string): Visit -> bool {
    (apt: Visit) => IsUpcoming(apt, today)
  }

  function PastOn(today: string): Visit -> bool {
    (apt: Visit) => IsPast(apt, today)
  }

  predicate LaterOrSame(a: Visit, b: Visit) {
    a.scheduledAt >= b.scheduledAt
  }

  /** `getUpcomingAppointments`: the upcoming records, soonest first. */
  function UpcomingAppointments(s: seq<Visit>, today: string): (r: seq<Visit>)
    ensures forall x :: multiset(r)[x] == if IsUpcoming(x, today) then multiset(s)[x] else 0
    ensures forall x :: x in r <==> x in s && IsUpcoming(x, today)
    ensures Sorted(r, ManageAppointments.EarlierOrSame)
  {
    assert TotalPreorder(ManageAppointments.EarlierOrSame);
    var picked := Filter(s, UpcomingOn(today));
    FilterMultiset(s, UpcomingOn(today));
    SortKeepsMembers(picked, ManageAppointments.EarlierOrSame);
    Sort(picked, ManageAppointments.EarlierOrSame)
  }

  /** `getPastAppointments`: the past records, most recent first. */
  function PastAppointments(s: seq<Visit>, today: string): (r: seq<Visit>)
    ensures forall x :: multiset(r)[x] == if IsPast(x, today) then multiset(s)[x] else 0
    ensures forall x :: x in r <==> x in s && IsPast(x, today)
    ensures Sorted(r, LaterOrSame)
  {
    assert TotalPreorder(LaterOrSame);
    var picked := Filter(s, PastOn(today));
    FilterMultiset(s, PastOn(today));
    SortKeepsMembers(picked, LaterOrSame);
    Sort(picked, LaterOrSame)
  }

  /** The cards the past section renders: `slice(0, 10)` of the past list, so at most ten,
      the most recent ones, and none older than a hidden one. */
  function PastSection(s: seq<Visit>, today: string): (r: seq<Visit>)
    ensures |r| == if |PastAppointments(s, today)| < 10 then |PastAppointments(s, today)| else 10
    ensures r == PastAppointments(s, today)[..|r|]
    ensures forall i, j :: 0 <= i < |r| <= j < |PastAppointments(s, today)| ==>
      r[i].scheduledAt >= PastAppointments(s, today)[j].scheduledAt
  {
    Take(PastAppointments(s, today), 10)
  }

  /** No record is both upcoming and past. */
  lemma SectionsDisjoint(s: seq<Visit>, today: string, x: Visit)
    ensures !(x in UpcomingAppointments(s, today) && x in PastAppointments(s, today))
  {
  }

  /** A record with one of the four statuses is upcoming or past, never both. */
  lemma UpcomingOrPast(v: Visit, today: string)
    requires Known(v.status)
    ensures IsUpcoming(v, today) != IsPast(v, today)
  {
  }

  /** With every status one of the four, each record is in one of the sections. */
  lemma SectionsCover(s: seq<Visit>, today: string)
    requires forall i :: 0 <= i < |s| ==> Known(s[i].status)
    ensures forall x :: x in s ==> x in UpcomingAppointments(s, today) || x in PastAppointments(s, today)
  {
    forall x | x in s
      ensures x in UpcomingAppointments(s, today) || x in PastAppointments(s, today)
    {
      var i :| 0 <= i < |s| && s[i] == x;
      UpcomingOrPast(x, today);
    }
  }

  /** With every status one of the four, the two sections together are as long as the
      list. */
  lemma {:induction false} SectionSizesAddUp(s: seq<Visit>, today: string)
    requires forall i :: 0 <= i < |s| ==> Known(s[i].status)
    ensures |UpcomingAppointments(s, today)| + |PastAppointments(s, today)| == |s|
  {
    assert |UpcomingAppointments(s, today)| == |Filter(s, UpcomingOn(today))|;
    assert |PastAppointments(s, today)| == |Filter(s, PastOn(today))|;
    forall i | 0 <= i < |s| ensures UpcomingOn(today)(s[i]) != PastOn(today)(s[i]) {
      UpcomingOrPast(s[i], today);
    }
    ComplementaryFilters(s, UpcomingOn(today), PastOn(today));
  }

  /** Marking a record completed (or cancelling it) takes it, and every record sharing
      its `_id`, out of the upcoming section. */
  lemma FinishedLeavesUpcoming(s: seq<Visit>, id: string, status: Status, today: string)
    requires Terminal(status)
    ensures forall x :: x in UpcomingAppointments(ManageAppointments.SetStatus(s, id, status), today) ==> x.id != id
  {
    var t := ManageAppointments.SetStatus(s, id, status);
    forall x | x in UpcomingAppointments(t, today) ensures x.id != id {
      assert x in t;
    }
  }

  /** Confirm and Cancel for a pending appointment, Mark Complete for a confirmed one. */
  function Actions(status: Status): (r: seq<Status>)
    ensures forall t :: t in r <==> Allowed(status, t) && !(status == Confirmed && t == Cancelled)
  {
    match status
    case Pending => [Confirmed, Cancelled]
    case Confirmed => [Completed]
    case _ => []
  }

  /** Every card in the upcoming section offers at least one action; past cards offer
      none on this screen. */
  lemma UpcomingCardsHaveActions(s: seq<Visit>, today: string, x: Visit)
    requires x in UpcomingAppointments(s, today)
    ensures |Actions(x.status)| > 0
  {
  }
}
