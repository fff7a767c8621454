/** The permission predicate `canEditSettings` of src/App.jsx. */
module Access {
  import opened Wrappers
  import opened Credentials

  /** The two roles that may edit the organization settings. */
  predicate IsEditorRole(role: string) {
    role == SuperAdminRole || role == AdminRole
  }

  /** The editor roles are exactly the roles the table gives to the accounts other than the trainer. */
  lemma EditorRolesFromTable(role: string)
    ensures IsEditorRole(role) <==>
      exists k :: k in DemoCredentials() && k != TrainerEmail && DemoCredentials()[k].role == role
  {
    if IsEditorRole(role) {
      var k := if role == SuperAdminRole then SuperAdminEmail else AdminEmail;
      assert k in DemoCredentials() && k != TrainerEmail && DemoCredentials()[k].role == role;
    }
  }

  /**
   * `canEditSettings`: editing needs a logged-in session whose user holds
   * the role of one of the table's accounts other than the trainer.
   */
  predicate CanEditSettings(isLoggedIn: bool, user: Option<User>)
    ensures CanEditSettings(isLoggedIn, user) <==>
      (isLoggedIn && user.Some?
       && exists k :: k in DemoCredentials() && k != TrainerEmail && DemoCredentials()[k].role == user.value.role)
  {
    if user.Some? then
      EditorRolesFromTable(user.value.role);
      isLoggedIn && IsEditorRole(user.value.role)
    else
      false
  }

  /**
   * Of the three demo accounts, a successful login grants edit rights for
   * the administrator and the super administrator, and not for the trainer.
   */
  lemma LoginEditRights(email: string, password: string)
    requires CheckLogin(email, password).Some?
    ensures CanEditSettings(true, CheckLogin(email, password)) <==> ToLower(email) != TrainerEmail
  {
    CheckLoginAccounts(email, password);
  }
}
