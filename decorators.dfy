/**
 * The access decorators of accounts/decorators.py. Each either invokes the
 * wrapped view or answers with a redirect instead, in which case the view is
 * never run. `student_required`, `landlord_required` and `admin_required`
 * are themselves wrapped in `login_required`.
 */
module Decorators {
  import opened Types
  import opened Accounts
  import opened TemplateHelpers

  datatype Admission = Invoke | Refuse(response: Response)

  /** `login_required`: anonymous visitors go to the login page. */
  function LoginRequired(u: User): (a: Admission)
    ensures a == Invoke <==> u.isAuthenticated
    ensures a != Invoke ==> a == Refuse(ToLogin)
  {
    if u.isAuthenticated then Invoke else Refuse(ToLogin)
  }

  /** `unauthenticated_user`: signed-in users go to the dashboard. */
  function UnauthenticatedUser(u: User): (a: Admission)
    ensures a == Invoke <==> !u.isAuthenticated
    ensures a != Invoke ==> a == Refuse(ToDashboard)
  {
    if u.isAuthenticated then Refuse(ToDashboard) else Invoke
  }

  /** The role branch shared by the three role decorators, behind `login_required`. */
  function RoleGate(u: User, allowed: bool): Admission
  {
    if !u.isAuthenticated then Refuse(ToLogin)
    else if allowed then Invoke
    else Refuse(ToDashboard)
  }

  function StudentRequired(u: User): (a: Admission)
    ensures a == Invoke <==> u.isAuthenticated && (u.userType == Student || u.isStaff)
    ensures a != Invoke ==> a == Refuse(if u.isAuthenticated then ToDashboard else ToLogin)
  {
    RoleGate(u, u.userType == Student || u.isStaff)
  }

  function LandlordRequired(u: User): (a: Admission)
    ensures a == Invoke <==> u.isAuthenticated && (u.userType == Landlord || u.isStaff)
    ensures a != Invoke ==> a == Refuse(if u.isAuthenticated then ToDashboard else ToLogin)
  {
    RoleGate(u, u.userType == Landlord || u.isStaff)
  }

  function AdminRequired(u: User): (a: Admission)
    ensures a == Invoke <==> u.isAuthenticated && u.isStaff
    ensures a != Invoke ==> a == Refuse(if u.isAuthenticated then ToDashboard else ToLogin)
  {
    RoleGate(u, u.isStaff)
  }

  /**
   * The decorators admit exactly the users the template helpers classify:
   * staff pass every role gate, and the `admin` user type alone passes none
   * but `login_required`.
   */
  lemma GatesMatchRoleHelpers(u: User)
    ensures StudentRequired(u) == Invoke <==> IsStudent(u) || IsAdmin(u)
    ensures LandlordRequired(u) == Invoke <==> IsLandlord(u) || IsAdmin(u)
    ensures AdminRequired(u) == Invoke <==> IsAdmin(u)
    ensures u.isAuthenticated && u.userType == Admin && !u.isStaff ==>
      StudentRequired(u) != Invoke && LandlordRequired(u) != Invoke && AdminRequired(u) != Invoke
  {
  }
}
