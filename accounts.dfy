/** The user entity of accounts/models.py, as seen by the permission checks and forms. */
module Accounts {
  import opened Types

  /** `User.USER_TYPE_CHOICES`. */
  datatype UserType = Student | Landlord | Admin

  function UserTypeName(t: UserType): string
  {
    match t
    case Student => "student"
    case Landlord => "landlord"
    case Admin => "admin"
  }

  /**
   * A user. `isAuthenticated` is false for the anonymous visitor, whose other
   * fields are then meaningless; `password` stands for the stored credential
   * (hashing is not modelled).
   */
  datatype User = User(
    id: UserId,
    userType: UserType,
    isStaff: bool,
    isAuthenticated: bool,
    email: string,
    phoneNumber: string,
    password: string)
}
