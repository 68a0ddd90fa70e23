/** The administrator's dashboard: the overview statistics over the user and
    appointment lists, and the local update after a user's active flag is toggled. */
module AdminDashboard {
  import opened Appointments
  import opened Seqs
  import ManageAppointments

  datatype UserType = Doctor | Patient | OtherType

  /** A user as the `/users` endpoint returns it, reduced to what the screen tests. */
  datatype Account = Account(id: string, name: string, userType: UserType, isActive: bool)

  datatype Stats = Stats(
    totalUsers: nat, totalDoctors: nat, totalPatients: nat,
    totalAppointments: nat, pendingAppointments: nat, completedAppointments: nat)

  /** `user => user.userType === userType` */
  function IsType(userType: UserType): Account -> bool {
    (u: Account) => u.userType == userType
  }

  /** `getStats`: list lengths, and one `filter(...).length` per category. */
  function GetStats(users: seq<Account>, appointments: seq<Visit>): (st: Stats)
    ensures st.totalUsers == |users| && st.totalAppointments == |appointments|
    ensures st.totalDoctors == |Filter(users, IsType(Doctor))|
    ensures st.totalPatients == |Filter(users, IsType(Patient))|
    ensures st.pendingAppointments == |Filter(appointments, ManageAppointments.HasStatus(Pending))|
    ensures st.completedAppointments == |Filter(appointments, ManageAppointments.HasStatus(Completed))|
    ensures st.totalDoctors + st.totalPatients <= st.totalUsers
    ensures st.pendingAppointments + st.completedAppointments <= st.totalAppointments
  {
    DisjointCountsBounded(users, IsType(Doctor), IsType(Patient));
    DisjointCountsBounded(appointments, ManageAppointments.HasStatus(Pending), ManageAppointments.HasStatus(Completed));
    CountIsFilterLength(users, IsType(Doctor));
    CountIsFilterLength(users, IsType(Patient));
    CountIsFilterLength(appointments, ManageAppointments.HasStatus(Pending));
    CountIsFilterLength(appointments, ManageAppointments.HasStatus(Completed));
    Stats(
      |users|, Count(users, IsType(Doctor)), Count(users, IsType(Patient)),
      |appointments|, Count(appointments, ManageAppointments.HasStatus(Pending)),
      Count(appointments, ManageAppointments.HasStatus(Completed)))
  }

  /** After the toggle request succeeds: every user with the given `_id` has its
      `isActive` flag negated; everything else stays as it was. */
  function ToggleUserStatus(users: seq<Account>, id: string): (r: seq<Account>)
    ensures |r| == |users|
    ensures forall i :: 0 <= i < |users| ==> r[i] == users[i].(isActive := r[i].isActive)
    ensures forall i :: 0 <= i < |users| ==> (r[i].isActive != users[i].isActive <==> users[i].id == id)
  {
    seq(|users|, i requires 0 <= i < |users| =>
      if users[i].id == id then users[i].(isActive := !users[i].isActive) else users[i])
  }

  /** Toggling the same user twice restores the list. */
  lemma ToggleTwiceRestores(users: seq<Account>, id: string)
    ensures ToggleUserStatus(ToggleUserStatus(users, id), id) == users
  {
  }

  /** Toggling never changes the overview statistics. */
  lemma ToggleKeepsStats(users: seq<Account>, appointments: seq<Visit>, id: string)
    ensures GetStats(ToggleUserStatus(users, id), appointments) == GetStats(users, appointments)
  {
    var t := ToggleUserStatus(users, id);
    CountPointwise(t, users, IsType(Doctor));
    CountPointwise(t, users, IsType(Patient));
  }
}
