/** The admin sign-in form (AdminLogin.tsx): a lookup of the entered
    credentials in the admin list, and the error line. */
module AdminLogin {
  import opened Basics
  import opened Listings

  /** The message shown for wrong credentials. */
  const WrongCredentials := "نام کاربری یا رمز عبور اشتباه است."

  predicate Matches(a: AdminUser, username: string, password: string)
  {
    a.username == username && a.password == password
  }

  /** `admins.find(...)`: the first admin whose username and password are
      exactly the entered ones. */
  function FindAdmin(admins: seq<AdminUser>, username: string, password: string): (r: Option<AdminUser>)
    ensures r.Some? <==> exists a :: a in admins && Matches(a, username, password)
    ensures r.Some? ==> exists k :: 0 <= k < |admins| && admins[k] == r.value
                          && Matches(admins[k], username, password)
                          && forall j :: 0 <= j < k ==> !Matches(admins[j], username, password)
  {
    if admins == [] then None
    else if Matches(admins[0], username, password) then Some(admins[0])
    else
      var r := FindAdmin(admins[1..], username, password);
      assert forall a :: a in admins[1..] ==> a in admins;
      assert forall a :: a in admins && a != admins[0] ==> a in admins[1..];
      if r.Some? then
        var k :| 0 <= k < |admins[1..]| && admins[1..][k] == r.value
                 && Matches(admins[1..][k], username, password)
                 && forall j :: 0 <= j < k ==> !Matches(admins[1..][j], username, password);
        assert admins[k + 1] == r.value;
        assert forall j :: 1 <= j < k + 1 ==> admins[j] == admins[1..][j - 1];
        r
      else r
  }

  class AdminLoginForm {
    var username: string
    var password: string
    var error: string

    constructor ()
      ensures username == "" && password == "" && error == ""
    {
      username, password, error := "", "", "";
    }

    /** `handleSubmit`: returns the admin handed to `onLogin`, or None after
        setting the error line. A success leaves an earlier error in place. */
    method HandleSubmit(admins: seq<AdminUser>) returns (loggedIn: Option<AdminUser>)
      modifies this`error
      ensures loggedIn == FindAdmin(admins, username, password)
      ensures loggedIn.None? ==> error == WrongCredentials
      ensures loggedIn.Some? ==> error == old(error)
    {
      loggedIn := FindAdmin(admins, username, password);
      if loggedIn.None? {
        error := WrongCredentials;
      }
    }
  }
}
