/** The client's authentication context (client/src/context/AuthContext.tsx), which runs in
    bypass mode: the signed-in user is always the mock user and every check succeeds. */
module AuthContext {
  import opened Options

  /** The client's `User` record (client/src/lib/types.ts). */
  datatype User = User(id: int, phoneNumber: string, name: string, createdAt: string)

  /** The mock user; its `createdAt` is the ISO time at which the module was loaded. */
  function MockUser(loadedAt: string): (u: User)
    ensures u.id == 1 && u.phoneNumber == "+919876543210" && u.name == "Test User" && u.createdAt == loadedAt
  {
    User(1, "+919876543210", "Test User", loadedAt)
  }

  class AuthSession {
    const loadedAt: string
    var user: Option<User>
    var phoneNumber: string

    /** Whatever happens, the session holds the mock user. */
    ghost predicate Valid()
      reads this
    {
      user == Some(MockUser(loadedAt))
    }

    constructor (loadedAt: string)
      ensures Valid() && this.loadedAt == loadedAt && phoneNumber == ""
    {
      this.loadedAt := loadedAt;
      user := Some(MockUser(loadedAt));
      phoneNumber := "";
    }

    /** The provider's constant flags. */
    function IsAuthenticated(): (b: bool)
      ensures b
    {
      true
    }

    function IsBypassMode(): (b: bool)
      ensures b
    {
      true
    }

    function IsLoading(): (b: bool)
      ensures !b
    {
      false
    }

    method SetPhoneNumber(phone: string)
      requires Valid()
      modifies this
      ensures Valid() && phoneNumber == phone
    {
      phoneNumber := phone;
    }

    /** `login`: records the phone number and signs the mock user in. */
    method Login(phone: string)
      requires Valid()
      modifies this
      ensures Valid() && phoneNumber == phone
    {
      phoneNumber := phone;
      user := Some(MockUser(loadedAt));
    }

    /** `verifyOtp`: every code is accepted. */
    method VerifyOtp(otp: string) returns (ok: bool)
      requires Valid()
      modifies this
      ensures Valid() && ok && phoneNumber == old(phoneNumber)
    {
      user := Some(MockUser(loadedAt));
      ok := true;
    }

    /** `createProfile`: every name is accepted and the user stays the mock user. */
    method CreateProfile(name: string) returns (ok: bool)
      requires Valid()
      modifies this
      ensures Valid() && ok && phoneNumber == old(phoneNumber)
    {
      user := Some(MockUser(loadedAt));
      ok := true;
    }

    /** `logout` does not sign anybody out. */
    method Logout()
      requires Valid()
      modifies this
      ensures Valid() && user.Some? && phoneNumber == old(phoneNumber)
    {
      user := Some(MockUser(loadedAt));
    }
  }

  /** `RequireAuth` renders its children whatever the session holds. */
  function RequireAuth<T>(session: AuthSession, children: T): (rendered: T)
    ensures rendered == children
  {
    children
  }
}
