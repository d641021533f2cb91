/**
 * The user list editor (security/ManageUsersForm.tsx): the ordering used to
 * display users, the uniqueness and admin checks, and the edits a form makes
 * to the list before saving it. `data` is the security settings the form was
 * given; `setData` replaces it.
 */
module ManageUsers {
  import opened Wrappers
  import opened Js
  import opened Sessions

  datatype User = User(username: string, password: string, admin: bool)

  /** The settings object the form edits: its users and whatever other settings come with them. */
  datatype SecuritySettings = SecuritySettings(users: seq<User>, otherSettings: JsObject)

  /** compareUsers: by username, -1, 1 or 0. */
  function CompareUsers(a: User, b: User): (r: int)
    ensures r == -1 || r == 0 || r == 1
  {
    if StringLess(a.username, b.username) then -1
    else if StringLess(b.username, a.username) then 1
    else 0
  }

  /** compareUsers answers exactly as string `<` orders the two usernames; 0 means the same username. */
  lemma CompareUsersOrder(a: User, b: User)
    ensures CompareUsers(a, b) == -1 <==> StringLess(a.username, b.username)
    ensures CompareUsers(a, b) == 1 <==> StringLess(b.username, a.username)
    ensures CompareUsers(a, b) == 0 <==> a.username == b.username
    ensures CompareUsers(a, b) == -CompareUsers(b, a)
  {
    StringLessAsymmetric(a.username, b.username);
    StringLessTotal(a.username, b.username);
    if a.username == b.username {
      StringLessAsymmetric(a.username, a.username);
    }
  }

  /** The table's `users.sort(compareUsers)`: the same users, by non-decreasing username. */
  lemma SortedUsers(users: seq<User>)
    ensures var sorted := SortWith(users, CompareUsers);
      && multiset(sorted) == multiset(users)
      && forall i | 0 <= i < |sorted| - 1 :: !StringLess(sorted[i + 1].username, sorted[i].username)
  {
    assert Total(CompareUsers) by {
      forall a: User, b: User ensures CompareUsers(a, b) <= 0 || CompareUsers(b, a) <= 0 {
        CompareUsersOrder(a, b);
      }
    }
    SortWithSorted(users, CompareUsers);
    var sorted := SortWith(users, CompareUsers);
    forall i | 0 <= i < |sorted| - 1 ensures !StringLess(sorted[i + 1].username, sorted[i].username) {
      CompareUsersOrder(sorted[i], sorted[i + 1]);
    }
  }

  /** uniqueUsername: true exactly when no user has that username. */
  function UniqueUsername(users: seq<User>, username: string): (unique: bool)
    ensures unique <==> forall i | 0 <= i < |users| :: users[i].username != username
  {
    if |users| == 0 then true
    else users[0].username != username && UniqueUsername(users[1..], username)
  }

  /** noAdminConfigured: true exactly when no user is an admin. */
  function NoAdminConfigured(users: seq<User>): (none: bool)
    ensures none <==> forall i | 0 <= i < |users| :: !users[i].admin
  {
    if |users| == 0 then true
    else !users[0].admin && NoAdminConfigured(users[1..])
  }

  /** The entries with the given username, in list order. */
  function Named(users: seq<User>, username: string): (r: seq<User>)
    ensures forall i | 0 <= i < |r| :: r[i].username == username
    ensures |r| == 0 <==> UniqueUsername(users, username)
  {
    if |users| == 0 then []
    else (if users[0].username == username then [users[0]] else []) + Named(users[1..], username)
  }

  /** `users.filter(u => u.username !== username)`. */
  function WithoutUser(users: seq<User>, username: string): (r: seq<User>)
    ensures |r| <= |users|
  {
    if |users| == 0 then []
    else (if users[0].username != username then [users[0]] else []) + WithoutUser(users[1..], username)
  }

  /** Named distributes over concatenation. */
  lemma {:induction false} NamedAppend(s: seq<User>, t: seq<User>, username: string)
    ensures Named(s + t, username) == Named(s, username) + Named(t, username)
  {
    if |s| > 0 {
      var head := if s[0].username == username then [s[0]] else [];
      assert (s + t)[0] == s[0] && (s + t)[1..] == s[1..] + t;
      assert Named(s + t, username) == head + Named(s[1..] + t, username);
      NamedAppend(s[1..], t, username);
      assert head + (Named(s[1..], username) + Named(t, username)) == (head + Named(s[1..], username)) + Named(t, username);
    } else {
      assert s + t == t;
    }
  }

  /**
   * Removing a username drops all of its entries and keeps every other
   * username's entries, in the same order.
   */
  lemma {:induction false} WithoutUserEntries(users: seq<User>, username: string, other: string)
    ensures Named(WithoutUser(users, username), username) == []
    ensures other != username ==> Named(WithoutUser(users, username), other) == Named(users, other)
  {
    if |users| > 0 {
      var head := if users[0].username != username then [users[0]] else [];
      WithoutUserEntries(users[1..], username, other);
      NamedAppend(head, WithoutUser(users[1..], username), username);
      NamedAppend(head, WithoutUser(users[1..], username), other);
    }
  }

  /** doneEditingUser's list: the entries of the edited username replaced by the edited user, appended last. */
  function ReplaceOrInsert(users: seq<User>, user: User): (r: seq<User>)
    ensures |r| > 0 && r[|r| - 1] == user
  {
    WithoutUser(users, user.username) + [user]
  }

  /** After replace-or-insert the edited username has exactly one entry, the edited user; other usernames keep theirs in order. */
  lemma ReplaceOrInsertEntries(users: seq<User>, user: User, other: string)
    ensures Named(ReplaceOrInsert(users, user), user.username) == [user]
    ensures other != user.username ==> Named(ReplaceOrInsert(users, user), other) == Named(users, other)
  {
    WithoutUserEntries(users, user.username, other);
    NamedAppend(WithoutUser(users, user.username), [user], user.username);
    NamedAppend(WithoutUser(users, user.username), [user], other);
  }

  /** The text fields of the user dialog. */
  datatype TextField = Username | Password

  class ManageUsersForm {
    /** props.data */
    var data: SecuritySettings
    var creating: bool
    /** The user being created or edited, shown in the dialog. */
    var user: Option<User>

    constructor (data: SecuritySettings)
      ensures this.data == data && !creating && user == None
    {
      this.data := data;
      creating := false;
      user := None;
    }

    /** The Save button is disabled exactly when no admin is configured. */
    function SaveDisabled(): (disabled: bool)
      reads this
      ensures disabled <==> forall i | 0 <= i < |data.users| :: !data.users[i].admin
    {
      NoAdminConfigured(data.users)
    }

    /** The table body sorts `data.users` in place and lists the result. */
    method RenderTable() returns (rows: seq<User>)
      modifies this
      ensures data == old(data).(users := SortWith(old(data).users, CompareUsers)) && rows == data.users
      ensures creating == old(creating) && user == old(user)
    {
      data := data.(users := SortWith(data.users, CompareUsers));
      rows := data.users;
    }

    /** createUser: the dialog opens in creating mode with an empty admin user. */
    method CreateUser()
      modifies this
      ensures creating && user == Some(User("", "", true)) && data == old(data)
    {
      creating := true;
      user := Some(User("", "", true));
    }

    /** startEditingUser: the dialog opens in editing mode on that user. */
    method StartEditingUser(toEdit: User)
      modifies this
      ensures !creating && user == Some(toEdit) && data == old(data)
    {
      creating := false;
      user := Some(toEdit);
    }

    /** cancelEditingUser: the dialog closes and the list is untouched. */
    method CancelEditingUser()
      modifies this
      ensures user == None && creating == old(creating) && data == old(data)
    {
      user := None;
    }

    /** removeUser: every entry with that username leaves the list; the other settings stay. */
    method RemoveUser(toRemove: User)
      modifies this
      ensures data == old(data).(users := WithoutUser(old(data).users, toRemove.username))
      ensures creating == old(creating) && user == old(user)
    {
      data := data.(users := WithoutUser(data.users, toRemove.username));
    }

    /** doneEditingUser: with a user in the dialog, replace-or-insert it and close the dialog; otherwise nothing. */
    method DoneEditingUser()
      modifies this
      ensures old(user).Some? ==>
        data == old(data).(users := ReplaceOrInsert(old(data).users, old(user).value)) && user == None
      ensures old(user).None? ==> data == old(data) && user == None
      ensures creating == old(creating)
    {
      if user.Some? {
        data := data.(users := ReplaceOrInsert(data.users, user.value));
        user := None;
      }
    }

    /** handleUserValueChange(name): that one text field of the dialog's user takes the typed value. */
    method HandleUserValueChange(name: TextField, value: string)
      requires user.Some?
      modifies this
      ensures name == Username ==> user == Some(old(user).value.(username := value))
      ensures name == Password ==> user == Some(old(user).value.(password := value))
      ensures data == old(data) && creating == old(creating)
    {
      user := Some(match name
        case Username => user.value.(username := value)
        case Password => user.value.(password := value));
    }

    /** handleUserCheckboxChange("admin"): the dialog's user takes the box's state as its admin flag. */
    method HandleUserCheckboxChange(checked: bool)
      requires user.Some?
      modifies this
      ensures user == Some(old(user).value.(admin := checked))
      ensures data == old(data) && creating == old(creating)
    {
      user := Some(user.value.(admin := checked));
    }

    /** onSubmit: saveData posts the current settings, then the session is refreshed. */
    method OnSubmit(session: AuthenticationWrapper, verify: FetchOutcome<()>) returns (posted: SecuritySettings)
      modifies session
      ensures posted == data
      ensures session.user == RefreshedUser(session.security, session.storage, verify, session.decode)
      ensures session.initialised && session.storage == old(session.storage) && session.location == old(session.location)
      ensures var token := StoredToken(session.storage);
        session.security && token.Some? && VerifyError(token.value, verify, session.decode).Some? ==>
          session.notifications == old(session.notifications)
            + [Notification("Error verifying authorization: " + VerifyError(token.value, verify, session.decode).value, Error)]
      ensures var token := StoredToken(session.storage);
        !(session.security && token.Some? && VerifyError(token.value, verify, session.decode).Some?) ==>
          session.notifications == old(session.notifications)
    {
      posted := data;
      session.Refresh(verify);
    }
  }

  // ---------------------------------------------------------------- scenarios

  /** Creating a user, naming it and confirming adds exactly one entry under that name. */
  method AddNamedUser(settings: SecuritySettings, username: string, password: string)
    returns (users: seq<User>, named: seq<User>, saveDisabled: bool)
    ensures named == [User(username, password, true)]
    ensures users == WithoutUser(settings.users, username) + [User(username, password, true)]
    ensures !saveDisabled
  {
    var form := new ManageUsersForm(settings);
    form.CreateUser();
    form.HandleUserValueChange(Username, username);
    form.HandleUserValueChange(Password, password);
    form.DoneEditingUser();
    ReplaceOrInsertEntries(settings.users, User(username, password, true), username);
    users, named, saveDisabled := form.data.users, Named(form.data.users, username), form.SaveDisabled();
    assert users[|users| - 1].admin;
  }

  /** Revoking the only admin's flag through the dialog disables Save. */
  method DemoteOnlyAdmin(admin: User) returns (saveDisabled: bool)
    requires admin.admin
    ensures saveDisabled
  {
    var form := new ManageUsersForm(SecuritySettings([admin], map[]));
    form.StartEditingUser(admin);
    form.HandleUserCheckboxChange(false);
    form.DoneEditingUser();
    assert WithoutUser([admin], admin.username) == [];
    saveDisabled := form.SaveDisabled();
  }

  /** Cancelling the dialog leaves the list as it was, whatever was typed. */
  method CancelKeepsList(settings: SecuritySettings, toEdit: User, typed: string) returns (users: seq<User>, editing: Option<User>)
    ensures users == settings.users && editing == None
  {
    var form := new ManageUsersForm(settings);
    form.StartEditingUser(toEdit);
    form.HandleUserValueChange(Username, typed);
    form.CancelEditingUser();
    users, editing := form.data.users, form.user;
  }
}
