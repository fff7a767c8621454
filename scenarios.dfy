/**
 * Event sequences run against the `App` class, each proved from the
 * methods' contracts alone.
 */
module Scenarios {
  import opened Wrappers
  import opened Credentials
  import opened Access
  import opened OrgSettings
  import opened LmsApp

  /** Login as the given demo account, typing the e-mail as given. */
  method SignIn(app: App, email: string, password: string) returns (outcome: Option<User>)
    requires app.Ready() && !app.isLoggedIn
    modifies app
    ensures app.Ready()
    ensures outcome == CheckLogin(email, password)
    ensures outcome.Some? ==> app.isLoggedIn && app.user == outcome && !app.showLoginModal
    ensures outcome.Some? ==> app.storage == old(app.storage)[AuthKey := UserRecord(outcome.value)]
    ensures outcome.None? ==> !app.isLoggedIn && app.loginError == InvalidLoginMessage
    ensures app.settings == old(app.settings) && app.saveStatus == old(app.saveStatus)
    ensures app.pendingSaves == old(app.pendingSaves) && app.pendingClears == old(app.pendingClears)
    ensures SettingsKey in old(app.storage) ==> SettingsKey in app.storage && app.storage[SettingsKey] == old(app.storage[SettingsKey])
  {
    app.OpenLoginModal();
    app.TypeLoginEmail(email);
    app.TypeLoginPassword(password);
    outcome := app.SubmitLogin();
  }

  /**
   * A Save click captures the settings: an edit made while the save timer
   * is pending stays in memory but is not what the timer writes.
   */
  method SaveWritesClickTimeSnapshot() returns (app: App)
    ensures SettingsKey in app.storage && app.storage[SettingsKey] == SettingsRecord(Defaults())
    ensures app.settings == Defaults().(orgName := "Acme Learning Group")
    ensures app.saveStatus == Saved && app.pendingClears == 1
  {
    app := new App(map[]);
    app.RestoreOnMount();
    CheckLoginAccounts(SuperAdminEmail, "super123");
    ToLowerOfLower(SuperAdminEmail);
    var outcome := SignIn(app, SuperAdminEmail, "super123");
    var clicked := app.ClickSave();
    assert clicked;
    var edited := app.EditSetting(SetOrgName("Acme Learning Group"));
    assert edited;
    app.SaveTimerFires(true);
  }

  /** The trainer logs in (e-mail typed in capitals) but may not edit, reset or save. */
  method TrainerCannotEdit() returns (app: App)
    ensures app.isLoggedIn && app.user.Some? && app.user.value.role == TrainerRole
    ensures !app.CanEdit() && !app.SaveEnabled()
    ensures app.settings == Defaults() && app.storage == map[AuthKey := UserRecord(app.user.value)]
  {
    app := new App(map[]);
    app.RestoreOnMount();
    CheckLoginIgnoresEmailCase("TRAINER@LMS.COM", "trainer123");
    LowerTrainerEmail();
    CheckLoginAccounts(TrainerEmail, "trainer123");
    ToLowerOfLower(TrainerEmail);
    var outcome := SignIn(app, "TRAINER@LMS.COM", "trainer123");
    var edited := app.EditSetting(SetOrgName("Acme Learning Group"));
    var reset := app.ResetSettings();
    var clicked := app.ClickSave();
    assert !edited && !reset && !clicked;
  }

  lemma LowerTrainerEmail()
    ensures ToLower("TRAINER@LMS.COM") == TrainerEmail
  {
    var s: string := "TRAINER@LMS.COM";
    assert forall i :: 0 <= i < |s| ==> ToLower(s)[i] == TrainerEmail[i];
  }

  /** After logout, edits made before stay in memory, but the controls no longer take edits, resets or saves. */
  method LogoutKeepsEdits() returns (app: App)
    ensures !app.isLoggedIn && AuthKey !in app.storage
    ensures app.settings == Defaults().(jwtSSO := false)
    ensures !app.CanEdit() && !app.SaveEnabled()
  {
    app := new App(map[]);
    app.RestoreOnMount();
    CheckLoginAccounts(AdminEmail, "admin123");
    ToLowerOfLower(AdminEmail);
    var outcome := SignIn(app, AdminEmail, "admin123");
    var edited := app.EditSetting(SetJwtSSO(false));
    assert edited;
    app.Logout();
    edited := app.EditSetting(SetJwtSSO(true));
    var reset := app.ResetSettings();
    assert !edited && !reset;
  }

  /** Unparsable settings in storage leave the defaults in place, and no session is restored. */
  method CorruptedSettingsFallBack(text: string) returns (app: App)
    ensures app.settings == Defaults() && !app.isLoggedIn
    ensures app.storage == map[SettingsKey := Unparsable(text)]
  {
    app := new App(map[SettingsKey := Unparsable(text)]);
    app.RestoreOnMount();
  }

  /**
   * Any user record found under `lms_auth` is logged in on mount without a
   * password, and its stored role alone decides edit rights.
   */
  method StoredSessionRestored(u: User, s: Settings) returns (app: App)
    ensures app.isLoggedIn && app.user == Some(u) && app.settings == s
    ensures app.CanEdit() <==> IsEditorRole(u.role)
  {
    app := new App(map[AuthKey := UserRecord(u), SettingsKey := SettingsRecord(s)]);
    app.RestoreOnMount();
  }

  /**
   * The disabled save button does not keep saves from overlapping: once
   * the first save's clearing timer fires, the status is "" again while a
   * second save is still pending, and a third click is taken.
   */
  method OverlappingSaves() returns (app: App)
    ensures |app.pendingSaves| == 2 && app.saveStatus == Saving
    ensures SettingsKey in app.storage && app.storage[SettingsKey] == SettingsRecord(Defaults())
  {
    app := new App(map[]);
    app.RestoreOnMount();
    CheckLoginAccounts(AdminEmail, "admin123");
    ToLowerOfLower(AdminEmail);
    var outcome := SignIn(app, AdminEmail, "admin123");
    var clicked := app.ClickSave();
    assert clicked;
    app.SaveTimerFires(true);
    clicked := app.ClickSave();
    assert clicked;
    app.StatusClearFires();
    clicked := app.ClickSave();
    assert clicked;
  }
}
