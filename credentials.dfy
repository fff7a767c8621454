/**
 * The demo credential table of src/App.jsx and the check `handleLogin` makes
 * against it: the typed e-mail is lower-cased and looked up, then the typed
 * password must match the entry exactly.
 */
module Credentials {
  import opened Wrappers

  /** One entry of the credential table. */
  datatype Account = Account(password: string, role: string, name: string)

  /** The session record built on a successful login and kept under `lms_auth`. */
  datatype User = User(email: string, role: string, name: string)

  const SuperAdminRole: string := "Super Admin"
  const AdminRole: string := "Admin / HR"
  const TrainerRole: string := "Trainer"

  const AdminEmail: string := "admin@lms.com"
  const SuperAdminEmail: string := "superadmin@lms.com"
  const TrainerEmail: string := "trainer@lms.com"

  /**
   * The fixed three-entry table. Every key is already lower-case, so every
   * entry can be reached by the lower-cased lookup of `CheckLogin`.
   */
  function DemoCredentials(): (m: map<string, Account>)
    ensures |m| == 3
    ensures forall k :: k in m ==> ToLower(k) == k
  {
    ToLowerOfLower(AdminEmail);
    ToLowerOfLower(SuperAdminEmail);
    ToLowerOfLower(TrainerEmail);
    map[
      AdminEmail := Account("admin123", AdminRole, "Admin User"),
      SuperAdminEmail := Account("super123", SuperAdminRole, "Super Admin"),
      TrainerEmail := Account("trainer123", TrainerRole, "Trainer User")
    ]
  }

  predicate IsUpper(c: char) {
    'A' <= c <= 'Z'
  }

  /** ASCII lower-casing of one character. */
  function LowerChar(c: char): (d: char)
    ensures !IsUpper(d)
    ensures IsUpper(c) ==> d as int == c as int + 32
    ensures !IsUpper(c) ==> d == c
  {
    if IsUpper(c) then (c as int + 32) as char else c
  }

  /** `String.prototype.toLowerCase`, restricted to the ASCII letters. */
  function ToLower(s: string): (r: string)
    ensures |r| == |s|
    ensures forall i :: 0 <= i < |s| ==> r[i] == LowerChar(s[i])
  {
    seq(|s|, i requires 0 <= i < |s| => LowerChar(s[i]))
  }

  /** Lower-casing a string that has no upper-case letter leaves it as it is. */
  lemma ToLowerOfLower(s: string)
    requires forall i :: 0 <= i < |s| ==> !IsUpper(s[i])
    ensures ToLower(s) == s
  {
    assert forall i :: 0 <= i < |s| ==> ToLower(s)[i] == s[i];
  }

  /** Lower-casing twice is lower-casing once. */
  lemma ToLowerIdempotent(s: string)
    ensures ToLower(ToLower(s)) == ToLower(s)
  {
    ToLowerOfLower(ToLower(s));
  }

  /**
   * The login check of `handleLogin`: the entry for the lower-cased e-mail,
   * if any, must carry exactly the typed password; the user record takes the
   * lower-cased e-mail and the entry's role and name.
   */
  function CheckLogin(email: string, password: string): (r: Option<User>)
    ensures r.Some? ==> r.value.email == ToLower(email) && r.value.email in DemoCredentials()
  {
    var key := ToLower(email);
    if key in DemoCredentials() && DemoCredentials()[key].password == password then
      Some(User(key, DemoCredentials()[key].role, DemoCredentials()[key].name))
    else
      None
  }

  /**
   * The three accounts spelled out one by one: login succeeds exactly for
   * these three (lower-cased e-mail, password) pairs, and yields the role
   * and the display name listed next to each.
   */
  lemma CheckLoginAccounts(email: string, password: string)
    ensures var key := ToLower(email);
      CheckLogin(email, password) ==
        if key == AdminEmail && password == "admin123" then Some(User(AdminEmail, AdminRole, "Admin User"))
        else if key == SuperAdminEmail && password == "super123" then Some(User(SuperAdminEmail, SuperAdminRole, "Super Admin"))
        else if key == TrainerEmail && password == "trainer123" then Some(User(TrainerEmail, TrainerRole, "Trainer User"))
        else None
  {
  }

  /** The e-mail is compared without regard to (ASCII) case. */
  lemma CheckLoginIgnoresEmailCase(email: string, password: string)
    ensures CheckLogin(email, password) == CheckLogin(ToLower(email), password)
  {
    ToLowerIdempotent(email);
  }

  /** The password is compared with regard to case: "ADMIN123" is not "admin123". */
  lemma CheckLoginPasswordCaseSensitive()
    ensures CheckLogin(AdminEmail, "admin123").Some?
    ensures CheckLogin(AdminEmail, "ADMIN123") == None
    ensures CheckLogin("ADMIN@LMS.COM", "admin123") == CheckLogin(AdminEmail, "admin123")
  {
    CheckLoginIgnoresEmailCase("ADMIN@LMS.COM", "admin123");
    LowerAdminEmail();
  }

  lemma LowerAdminEmail()
    ensures ToLower("ADMIN@LMS.COM") == AdminEmail
  {
    var s: string := "ADMIN@LMS.COM";
    var t := ToLower(s);
    assert |t| == |AdminEmail|;
    forall i | 0 <= i < |s| ensures t[i] == AdminEmail[i] {
      assert t[i] == LowerChar(s[i]);
    }
  }

  /** Every user that login produces is a row of the table, e-mail already lower-case. */
  lemma CheckLoginUserIsListed(email: string, password: string)
    requires CheckLogin(email, password).Some?
    ensures var u := CheckLogin(email, password).value;
      u.email in DemoCredentials() && ToLower(u.email) == u.email
      && DemoCredentials()[u.email].role == u.role && DemoCredentials()[u.email].name == u.name
  {
    ToLowerIdempotent(email);
  }
}
