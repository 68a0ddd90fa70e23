/** The appointment records the screens work on, the status values, the filter keys of
    the tab bars, the time constants, and the status lifecycle that the screens' action
    buttons imply.

    The repository reads appointments in two shapes. The screens backed by the
    appointment service (user and provider screens) see an `appointmentDate` instant and
    an optional `timeSlot`; here that is `Booking`. The screens that call the REST API
    directly (doctor, patient and admin screens) see separate `date` and `time` strings;
    here that is `Visit`. */
module Appointments {
  import opened Wrappers

  /** Milliseconds since the epoch, the value of `new Date(...)` compared with `<`. */
  type Instant = int

  const HOUR_MS: int := 3_600_000
  const DAY_MS: int := 86_400_000

  /** An appointment status; `Other` stands for any text the backend sends that is none
      of the four names the screens test for. */
  datatype Status = Pending | Confirmed | Completed | Cancelled | Other

  /** The keys of the filter tabs across all screens. `Unrecognised` stands for any other
      key, which every screen sends to its `default` branch. */
  datatype FilterKey =
    | All | Upcoming | Past | Today
    | PendingKey | ConfirmedKey | CompletedKey | CancelledKey
    | Unrecognised

  /** An appointment as the service-backed screens see it. `start` is `timeSlot?.start`. */
  datatype Booking = Booking(
    id: string,
    appointmentDate: Instant,
    status: Status,
    start: Option<string>,
    notes: string)

  /** An appointment as the API-backed screens see it. `date` is an ISO "YYYY-MM-DD"
      string, `time` the slot label, and `scheduledAt` the instant that
      `new Date(date + ' ' + time)` denotes. */
  datatype Visit = Visit(
    id: string,
    date: string,
    time: string,
    scheduledAt: Instant,
    status: Status,
    patientName: string,
    reason: string,
    notes: string)

  /** The status is one of the four the screens know. */
  predicate Known(s: Status) {
    !s.Other?
  }

  /** `[today 00:00, tomorrow 00:00)` for a day starting at `midnight`. */
  predicate InDay(t: Instant, midnight: Instant) {
    midnight <= t < midnight + DAY_MS
  }

  /** The lifecycle the action buttons imply, taken as the intended transition relation:
      a pending appointment can be confirmed or cancelled, a confirmed one completed or
      cancelled, and nothing leaves `Completed` or `Cancelled`. */
  predicate Allowed(from: Status, to: Status) {
    || (from == Pending && (to == Confirmed || to == Cancelled))
    || (from == Confirmed && (to == Completed || to == Cancelled))
  }

  predicate Terminal(s: Status) {
    s == Completed || s == Cancelled
  }

  /** How far along the lifecycle a status is. */
  function Stage(s: Status): nat {
    match s
    case Pending => 0
    case Confirmed => 1
    case Completed => 2
    case Cancelled => 2
    case Other => 0
  }

  /** A chain of statuses in which each step is an allowed transition. */
  ghost predicate Walk(path: seq<Status>) {
    forall i :: 0 <= i < |path| - 1 ==> Allowed(path[i], path[i + 1])
  }

  /** Each step of a walk advances the stage by at least one, so the stage after `i`
      steps is at least `i` beyond the start. */
  lemma {:induction false} WalkAdvances(path: seq<Status>, i: nat)
    requires Walk(path)
    requires i < |path|
    ensures Stage(path[i]) >= Stage(path[0]) + i
  {
    if i > 0 {
      WalkAdvances(path, i - 1);
      assert Allowed(path[i - 1], path[i]);
    }
  }

  /** The lifecycle is acyclic and short: a chain of allowed transitions never revisits
      a status, and has at most two steps. */
  lemma WalkIsShortAndSimple(path: seq<Status>)
    requires Walk(path)
    ensures |path| <= 3
    ensures forall i, j :: 0 <= i < j < |path| ==> path[i] != path[j]
  {
    if |path| > 3 {
      WalkAdvances(path, 3);
    }
    forall i, j | 0 <= i < j < |path| ensures path[i] != path[j] {
      WalkAdvances(path[i..], j - i);
      assert Walk(path[i..]);
    }
  }
}
