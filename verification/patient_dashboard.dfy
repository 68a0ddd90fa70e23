/** The patient's dashboard: the Cancel button, offered with no time guard, and the
    local removal of the appointment once the user has confirmed and the delete request
    has succeeded. */
module PatientDashboard {
  import opened Appointments
  import opened Seqs
  import UserAppointments

  /** The Cancel button is shown for a pending or confirmed appointment. */
  predicate CancelOffered(status: Status) {
    status == Pending || status == Confirmed
  }

  /** No two records share an `_id`. */
  ghost predicate UniqueIds(s: seq<Visit>) {
    forall i, j :: 0 <= i < j < |s| ==> s[i].id != s[j].id
  }

  ghost predicate HasId(s: seq<Visit>, id: string) {
    exists i :: 0 <= i < |s| && s[i].id == id
  }

  /** `apt => apt._id !== id` */
  function OtherThan(id: string): Visit -> bool {
    (apt: Visit) => apt.id != id
  }

  /** `cancelAppointment`: when the user confirms the dialog and the delete request
      succeeds, every record with that `_id` leaves the list; otherwise the list is kept. */
  function CancelAppointment(s: seq<Visit>, id: string, userConfirmed: bool, deleted: bool)
    : (r: seq<Visit>)
    ensures !(userConfirmed && deleted) ==> r == s
    ensures userConfirmed && deleted ==> forall x :: x in r ==> x.id != id
    ensures userConfirmed && deleted ==> forall x :: x in s && x.id != id ==> x in r
    ensures userConfirmed && deleted ==>
      forall x :: multiset(r)[x] == if x.id != id then multiset(s)[x] else 0
    ensures Subseq(r, s)
  {
    if userConfirmed && deleted then
      FilterIsSubseq(s, OtherThan(id));
      FilterMultiset(s, OtherThan(id));
      Filter(s, OtherThan(id))
    else SubseqRefl(s); s
  }

  /** With unique ids, a confirmed and successful cancel shortens the list by one when
      the id was present and leaves its length alone otherwise. */
  lemma {:induction false} CancelLength(s: seq<Visit>, id: string)
    requires UniqueIds(s)
    ensures |CancelAppointment(s, id, true, true)| == |s| - (if HasId(s, id) then 1 else 0)
  {
    if |s| > 0 {
      assert UniqueIds(s[1..]);
      CancelLength(s[1..], id);
      if s[0].id == id {
        assert !HasId(s[1..], id) by {
          forall i | 0 <= i < |s[1..]| ensures s[1..][i].id != id {
            assert s[1..][i] == s[i + 1];
          }
        }
      } else {
        assert HasId(s, id) <==> HasId(s[1..], id) by {
          if HasId(s, id) {
            var i :| 0 <= i < |s| && s[i].id == id;
            assert s[1..][i - 1] == s[i];
          }
          if HasId(s[1..], id) {
            var i :| 0 <= i < |s[1..]| && s[1..][i].id == id;
            assert s[i + 1] == s[1..][i];
          }
        }
      }
    }
  }

  /** The user appointments screen offers Cancel under the same status rule plus a
      more-than-one-day guard; this screen has no time guard. */
  lemma TimeGuardIsTheOnlyDifference(b: Booking, now: Instant)
    ensures UserAppointments.CanCancel(b, now) <==> CancelOffered(b.status) && b.appointmentDate - now > DAY_MS
  {
  }
}
