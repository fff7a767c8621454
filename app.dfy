/**
 * The state held by the `App` component of src/App.jsx and the event
 * handlers that change it. Browser local storage is the `storage` map; the
 * two `setTimeout` callbacks of the save button are the events
 * `SaveTimerFires` and `StatusClearFires`, whose pending instances the
 * fields `pendingSaves` and `pendingClears` record.
 *
 * A handler bound to a control that is disabled or not rendered in the
 * current state cannot run; the methods below take such an event and leave
 * the state as it is.
 */
module LmsApp {
  import opened Wrappers
  import opened Credentials
  import opened Access
  import opened OrgSettings

  const AuthKey: string := "lms_auth"
  const SettingsKey: string := "lms_settings"
  const InvalidLoginMessage: string := "Invalid email or password. Try: admin@lms.com / admin123"

  /**
   * A storage value, taken past its JSON encoding: a record this program
   * wrote, or text that `JSON.parse` rejects.
   */
  datatype Stored = UserRecord(user: User) | SettingsRecord(settings: Settings) | Unparsable(text: string)

  /** `JSON.parse` of the `lms_auth` value; None where it throws. */
  function DecodeUser(v: Stored): Option<User> {
    match v
    case UserRecord(u) => Some(u)
    case _ => None
  }

  /** `JSON.parse` of the `lms_settings` value; None where it throws. */
  function DecodeSettings(v: Stored): Option<Settings> {
    match v
    case SettingsRecord(s) => Some(s)
    case _ => None
  }

  /** What a key holds once decoded; None when the key is absent or its text does not parse. */
  function Load<T>(storage: map<string, Stored>, key: string, decode: Stored -> Option<T>): Option<T> {
    if key in storage then decode(storage[key]) else None
  }

  /** The save-button status; `StatusText` gives the string the source keeps. */
  datatype SaveStatus = Idle | Saving | Saved | Failed

  function StatusText(s: SaveStatus): (t: string)
    ensures t == "" <==> s == Idle
  {
    match s
    case Idle => ""
    case Saving => "saving"
    case Saved => "saved"
    case Failed => "error"
  }

  /**
   * The save button's label: the four conditional parts of its markup,
   * each of which renders its text when its condition holds and nothing
   * otherwise, side by side.
   */
  function SaveButtonLabel(status: string): string {
    (if status == "saving" then "Saving..." else "")
    + (if status == "saved" then "\U{2713} Saved!" else "")
    + (if status == "error" then "\U{2717} Error" else "")
    + (if status == "" then "Save settings" else "")
  }

  /** Each status shows exactly one label, and different statuses show different labels. */
  lemma SaveButtonLabelShowsStatus(s: SaveStatus, t: SaveStatus)
    ensures SaveButtonLabel(StatusText(s)) ==
      match s
      case Idle => "Save settings"
      case Saving => "Saving..."
      case Saved => "\U{2713} Saved!"
      case Failed => "\U{2717} Error"
    ensures SaveButtonLabel(StatusText(s)) == SaveButtonLabel(StatusText(t)) ==> s == t
  {
  }

  datatype LoginForm = LoginForm(email: string, password: string)

  const EmptyForm: LoginForm := LoginForm("", "")

  class App {
    var isLoggedIn: bool
    var showLoginModal: bool
    var user: Option<User>
    var loginError: string
    var loginForm: LoginForm
    var settings: Settings
    var saveStatus: SaveStatus
    /** Browser local storage. */
    var storage: map<string, Stored>
    /** The settings captured by Save clicks whose 500 ms timer has not fired yet, oldest first. */
    var pendingSaves: seq<Settings>
    /** The 3000 ms status-clearing timers that have not fired yet. */
    var pendingClears: nat
    /** The mount effect has run; it runs once, before any user or timer event. */
    ghost var mounted: bool

    /**
     * A session in memory is the one kept in storage, and a status other
     * than the idle one always has the timer pending that will move it on.
     */
    ghost predicate Valid()
      reads this
    {
      && (isLoggedIn <==> user.Some?)
      && (isLoggedIn ==> AuthKey in storage && storage[AuthKey] == UserRecord(user.value))
      && (saveStatus == Saving ==> pendingSaves != [])
      && (saveStatus in {Saved, Failed} ==> pendingClears > 0)
    }

    /** The component is mounted and its invariant holds: the state every event starts from. */
    ghost predicate Ready()
      reads this
    {
      Valid() && mounted
    }

    /** `canEditSettings`. */
    predicate CanEdit()
      reads this
    {
      CanEditSettings(isLoggedIn, user)
    }

    /** The save button is enabled. */
    predicate SaveEnabled()
      reads this
    {
      CanEdit() && saveStatus != Saving
    }

    /** The initial state of every `useState`, over whatever storage already holds. */
    constructor (stored: map<string, Stored>)
      ensures Valid() && !mounted
      ensures !isLoggedIn && !showLoginModal && user == None
      ensures loginError == "" && loginForm == EmptyForm
      ensures settings == Defaults() && saveStatus == Idle
      ensures storage == stored && pendingSaves == [] && pendingClears == 0
    {
      isLoggedIn, showLoginModal, user := false, false, None;
      loginError, loginForm := "", EmptyForm;
      settings, saveStatus := Defaults(), Idle;
      storage, pendingSaves, pendingClears := stored, [], 0;
      mounted := false;
    }

    /**
     * The mount effect: settings stored under `lms_settings` replace the
     * in-memory ones, and a user stored under `lms_auth` is logged in; a
     * missing key, or text that does not parse, leaves that part as it was.
     */
    method RestoreOnMount()
      requires Valid() && !mounted
      modifies this
      ensures Ready()
      ensures var saved := Load(storage, SettingsKey, DecodeSettings);
        settings == if saved.Some? then saved.value else old(settings)
      ensures var auth := Load(storage, AuthKey, DecodeUser);
        if auth.Some? then isLoggedIn && user == auth
        else isLoggedIn == old(isLoggedIn) && user == old(user)
      ensures storage == old(storage)
      ensures showLoginModal == old(showLoginModal) && loginError == old(loginError) && loginForm == old(loginForm)
      ensures saveStatus == old(saveStatus) && pendingSaves == old(pendingSaves) && pendingClears == old(pendingClears)
    {
      var saved := Load(storage, SettingsKey, DecodeSettings);
      mounted := true;
      if saved.Some? {
        settings := saved.value;
      }
      var auth := Load(storage, AuthKey, DecodeUser);
      if auth.Some? {
        isLoggedIn := true;
        user := auth;
      }
    }

    /** The two "Sign In" / "Launch" buttons, rendered only while logged out. */
    method OpenLoginModal()
      requires Ready()
      modifies this
      ensures Ready()
      ensures showLoginModal == (old(showLoginModal) || !old(isLoggedIn))
      ensures isLoggedIn == old(isLoggedIn) && user == old(user) && loginError == old(loginError) && loginForm == old(loginForm)
      ensures settings == old(settings) && saveStatus == old(saveStatus) && storage == old(storage)
      ensures pendingSaves == old(pendingSaves) && pendingClears == old(pendingClears)
    {
      if !isLoggedIn {
        showLoginModal := true;
      }
    }

    /** A click on the backdrop or on the close button of the open modal: it closes and the error is cleared. */
    method CloseLoginModal()
      requires Ready()
      modifies this
      ensures Ready()
      ensures !showLoginModal
      ensures loginError == if old(showLoginModal) then "" else old(loginError)
      ensures isLoggedIn == old(isLoggedIn) && user == old(user) && loginForm == old(loginForm)
      ensures settings == old(settings) && saveStatus == old(saveStatus) && storage == old(storage)
      ensures pendingSaves == old(pendingSaves) && pendingClears == old(pendingClears)
    {
      if showLoginModal {
        showLoginModal := false;
        loginError := "";
      }
    }

    /** Typing into the e-mail input of the open modal. */
    method TypeLoginEmail(v: string)
      requires Ready()
      modifies this
      ensures Ready()
      ensures loginForm == if old(showLoginModal) then old(loginForm).(email := v) else old(loginForm)
      ensures isLoggedIn == old(isLoggedIn) && showLoginModal == old(showLoginModal) && user == old(user) && loginError == old(loginError)
      ensures settings == old(settings) && saveStatus == old(saveStatus) && storage == old(storage)
      ensures pendingSaves == old(pendingSaves) && pendingClears == old(pendingClears)
    {
      if showLoginModal {
        loginForm := loginForm.(email := v);
      }
    }

    /** Typing into the password input of the open modal. */
    method TypeLoginPassword(v: string)
      requires Ready()
      modifies this
      ensures Ready()
      ensures loginForm == if old(showLoginModal) then old(loginForm).(password := v) else old(loginForm)
      ensures isLoggedIn == old(isLoggedIn) && showLoginModal == old(showLoginModal) && user == old(user) && loginError == old(loginError)
      ensures settings == old(settings) && saveStatus == old(saveStatus) && storage == old(storage)
      ensures pendingSaves == old(pendingSaves) && pendingClears == old(pendingClears)
    {
      if showLoginModal {
        loginForm := loginForm.(password := v);
      }
    }

    /**
     * `handleLogin`, on submitting the open modal's form. On success the
     * user record is the session in memory and under `lms_auth`, the modal
     * closes and the form is emptied; on failure only the error message is
     * set.
     */
    method SubmitLogin() returns (outcome: Option<User>)
      requires Ready()
      modifies this
      ensures Ready()
      ensures outcome == if old(showLoginModal) then CheckLogin(old(loginForm.email), old(loginForm.password)) else None
      ensures outcome.Some? ==>
        && isLoggedIn && user == outcome && !showLoginModal
        && loginForm == EmptyForm && loginError == ""
        && storage == old(storage)[AuthKey := UserRecord(outcome.value)]
      ensures outcome.None? ==>
        && isLoggedIn == old(isLoggedIn) && user == old(user) && showLoginModal == old(showLoginModal)
        && loginForm == old(loginForm) && storage == old(storage)
        && loginError == if old(showLoginModal) then InvalidLoginMessage else old(loginError)
      ensures settings == old(settings) && saveStatus == old(saveStatus)
      ensures pendingSaves == old(pendingSaves) && pendingClears == old(pendingClears)
    {
      outcome := None;
      if showLoginModal {
        loginError := "";
        outcome := CheckLogin(loginForm.email, loginForm.password);
        if outcome.Some? {
          user := outcome;
          isLoggedIn := true;
          showLoginModal := false;
          loginForm := EmptyForm;
          storage := storage[AuthKey := UserRecord(outcome.value)];
        } else {
          loginError := InvalidLoginMessage;
        }
      }
    }

    /** `handleLogout`, from the "Sign Out" button rendered while logged in. */
    method Logout()
      requires Ready()
      modifies this
      ensures Ready()
      ensures !isLoggedIn && user == None
      ensures storage == if old(isLoggedIn) then old(storage) - {AuthKey} else old(storage)
      ensures showLoginModal == old(showLoginModal) && loginError == old(loginError) && loginForm == old(loginForm)
      ensures settings == old(settings) && saveStatus == old(saveStatus)
      ensures pendingSaves == old(pendingSaves) && pendingClears == old(pendingClears)
    {
      if isLoggedIn {
        isLoggedIn := false;
        user := None;
        storage := storage - {AuthKey};
      }
    }

    /** The `onChange` handler of one settings control; the controls are disabled unless editing is allowed. */
    method EditSetting(e: Edit) returns (accepted: bool)
      requires Ready()
      modifies this
      ensures Ready()
      ensures accepted == old(CanEdit())
      ensures settings == if accepted then ApplyEdit(old(settings), e) else old(settings)
      ensures isLoggedIn == old(isLoggedIn) && showLoginModal == old(showLoginModal) && user == old(user)
      ensures loginError == old(loginError) && loginForm == old(loginForm)
      ensures saveStatus == old(saveStatus) && storage == old(storage)
      ensures pendingSaves == old(pendingSaves) && pendingClears == old(pendingClears)
    {
      accepted := CanEdit();
      if accepted {
        settings := ApplyEdit(settings, e);
      }
    }

    /**
     * `handleSaveSettings`, from the save button (enabled when editing is
     * allowed and no save is in progress): the status becomes "saving" and
     * a timer is set that will write the settings as they are now.
     */
    method ClickSave() returns (accepted: bool)
      requires Ready()
      modifies this
      ensures Ready()
      ensures accepted == old(SaveEnabled())
      ensures saveStatus == if accepted then Saving else old(saveStatus)
      ensures pendingSaves == if accepted then old(pendingSaves) + [old(settings)] else old(pendingSaves)
      ensures isLoggedIn == old(isLoggedIn) && showLoginModal == old(showLoginModal) && user == old(user)
      ensures loginError == old(loginError) && loginForm == old(loginForm)
      ensures settings == old(settings) && storage == old(storage) && pendingClears == old(pendingClears)
    {
      accepted := SaveEnabled();
      if accepted {
        saveStatus := Saving;
        pendingSaves := pendingSaves + [settings];
      }
    }

    /**
     * The oldest save timer fires: the settings captured at its click are
     * written to `lms_settings` and the status becomes "saved", or, when the
     * write throws, nothing is written and the status becomes "error"; a
     * clearing timer is set either way.
     */
    method SaveTimerFires(writeOk: bool)
      requires Ready()
      requires pendingSaves != []
      modifies this
      ensures Ready()
      ensures pendingSaves == old(pendingSaves[1..]) && pendingClears == old(pendingClears) + 1
      ensures writeOk ==> saveStatus == Saved && storage == old(storage)[SettingsKey := SettingsRecord(old(pendingSaves[0]))]
      ensures !writeOk ==> saveStatus == Failed && storage == old(storage)
      ensures isLoggedIn == old(isLoggedIn) && showLoginModal == old(showLoginModal) && user == old(user)
      ensures loginError == old(loginError) && loginForm == old(loginForm) && settings == old(settings)
    {
      var snapshot := pendingSaves[0];
      pendingSaves := pendingSaves[1..];
      if writeOk {
        storage := storage[SettingsKey := SettingsRecord(snapshot)];
        saveStatus := Saved;
      } else {
        saveStatus := Failed;
      }
      pendingClears := pendingClears + 1;
    }

    /** A status-clearing timer fires: the status goes back to "". */
    method StatusClearFires()
      requires Ready()
      requires pendingClears > 0
      modifies this
      ensures Ready()
      ensures saveStatus == Idle && pendingClears == old(pendingClears) - 1
      ensures isLoggedIn == old(isLoggedIn) && showLoginModal == old(showLoginModal) && user == old(user)
      ensures loginError == old(loginError) && loginForm == old(loginForm)
      ensures settings == old(settings) && storage == old(storage) && pendingSaves == old(pendingSaves)
    {
      saveStatus := Idle;
      pendingClears := pendingClears - 1;
    }

    /** `handleResetSettings`, from the reset button (enabled when editing is allowed): defaults in memory and in storage at once. */
    method ResetSettings() returns (accepted: bool)
      requires Ready()
      modifies this
      ensures Ready()
      ensures accepted == old(CanEdit())
      ensures settings == if accepted then Defaults() else old(settings)
      ensures storage == if accepted then old(storage)[SettingsKey := SettingsRecord(Defaults())] else old(storage)
      ensures isLoggedIn == old(isLoggedIn) && showLoginModal == old(showLoginModal) && user == old(user)
      ensures loginError == old(loginError) && loginForm == old(loginForm)
      ensures saveStatus == old(saveStatus) && pendingSaves == old(pendingSaves) && pendingClears == old(pendingClears)
    {
      accepted := CanEdit();
      if accepted {
        settings := Defaults();
        storage := storage[SettingsKey := SettingsRecord(Defaults())];
      }
    }
  }

  /**
   * Edit rights rest on the session kept in storage: whenever editing is
   * allowed, `lms_auth` holds a user record with an editor role.
   */
  lemma EditRightsRestOnStoredSession(app: App)
    requires app.Valid() && app.CanEdit()
    ensures AuthKey in app.storage && app.storage[AuthKey].UserRecord?
    ensures IsEditorRole(app.storage[AuthKey].user.role)
  {
  }
}
