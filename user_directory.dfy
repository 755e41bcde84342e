/**
  The user-management settings panel: a searchable list of users that can be
  added through a form, activated or deactivated, and deleted, plus an
  invitation dialog that only checks that something was typed.
 */
module UserDirectory {
  import opened Collections
  import opened Text

  datatype User = User(
    id: string,
    name: string,
    email: string,
    role: string,
    department: string,
    status: string,
    lastLogin: string)

  /** The add-user form. */
  datatype NewUserForm = NewUserForm(
    name: string,
    email: string,
    role: string,
    department: string,
    status: string)

  /** The form as it opens and as it is reset after a successful add. */
  function EmptyForm(): (f: NewUserForm)
    ensures f.name == "" && f.email == "" && f.department == ""
    ensures f.role == "user" && f.status == "active"
  {
    NewUserForm("", "", "user", "", "active")
  }

  function MockUsers(): seq<User> {
    [ User("user-001", "John Doe", "john.doe@example.com", "admin", "IT", "active", "2025-05-09 14:32"),
      User("user-002", "Jane Smith", "jane.smith@example.com", "manager", "HR", "active", "2025-05-08 09:15"),
      User("user-003", "Michael Johnson", "michael.johnson@example.com", "user", "Marketing", "active", "2025-05-07 16:45"),
      User("user-004", "Emily Wilson", "emily.wilson@example.com", "user", "Finance", "inactive", "2025-04-28 11:20"),
      User("user-005", "David Kim", "david.kim@example.com", "manager", "Operations", "active", "2025-05-09 10:05") ]
  }

  predicate HasId(us: seq<User>, id: string) {
    exists i :: 0 <= i < |us| && us[i].id == id
  }

  function IdIs(id: string): User -> bool {
    (u: User) => u.id == id
  }

  function IdIsNot(id: string): User -> bool {
    (u: User) => u.id != id
  }

  /** The search box matches a user when the lower-cased query occurs in the lower-cased name, email or department. */
  predicate MatchesQuery(u: User, query: string) {
    var q := Lower(query);
    Includes(Lower(u.name), q) || Includes(Lower(u.email), q) || Includes(Lower(u.department), q)
  }

  function Matching(query: string): User -> bool {
    (u: User) => MatchesQuery(u, query)
  }

  /** `filteredUsers`: the users the table shows, in list order. */
  function FilteredUsers(us: seq<User>, query: string): (r: seq<User>)
    ensures |r| <= |us|
    ensures forall i :: 0 <= i < |r| ==> r[i] in us && MatchesQuery(r[i], query)
    ensures forall i :: 0 <= i < |us| && MatchesQuery(us[i], query) ==> us[i] in r
  {
    Keep(us, Matching(query))
  }

  /** The search keeps the list's order: it distributes over concatenation. */
  lemma FilteredUsersAppend(a: seq<User>, b: seq<User>, query: string)
    ensures FilteredUsers(a + b, query) == FilteredUsers(a, query) + FilteredUsers(b, query)
  {
    KeepAppend(a, b, Matching(query));
  }

  /** A single user is listed once or not at all. */
  lemma FilteredUsersUnit(u: User, query: string)
    ensures FilteredUsers([u], query) == if MatchesQuery(u, query) then [u] else []
  {
    KeepUnit(u, Matching(query));
  }

  /** An empty search box shows every user. */
  lemma EmptyQueryShowsAll(us: seq<User>)
    ensures FilteredUsers(us, "") == us
  {
    forall i | 0 <= i < |us| ensures MatchesQuery(us[i], "") {
      IncludesEmpty(Lower(us[i].name));
    }
    KeepAll(us, Matching(""));
  }

  /** The search ignores the case of the query. */
  lemma SearchIgnoresQueryCase(us: seq<User>, query: string)
    ensures FilteredUsers(us, query) == FilteredUsers(us, Lower(query))
  {
    LowerIdempotent(query);
    KeepCongruent(us, Matching(query), Matching(Lower(query)));
  }

  /** A user matches exactly when the query occurs at some position of one of the three fields. */
  lemma MatchesQueryIff(u: User, query: string)
    ensures MatchesQuery(u, query) <==>
      (exists i :: OccursAt(Lower(u.name), Lower(query), i))
      || (exists i :: OccursAt(Lower(u.email), Lower(query), i))
      || (exists i :: OccursAt(Lower(u.department), Lower(query), i))
  {
    IncludesIff(Lower(u.name), Lower(query));
    IncludesIff(Lower(u.email), Lower(query));
    IncludesIff(Lower(u.department), Lower(query));
  }

  /** The id the next added user receives: the literal prefix `user-00` followed by the new length. */
  function NewUserId(count: nat): string {
    "user-00" + NatToString(count + 1)
  }

  /** Name and email must both be non-empty. */
  predicate CanAdd(form: NewUserForm) {
    form.name != "" && form.email != ""
  }

  function NewUser(form: NewUserForm, count: nat): (u: User)
    ensures u.id == NewUserId(count) && u.lastLogin == "Never"
    ensures u.name == form.name && u.email == form.email && u.role == form.role
    ensures u.department == form.department && u.status == form.status
  {
    User(NewUserId(count), form.name, form.email, form.role, form.department, form.status, "Never")
  }

  /** `handleAddUser`'s effect on the list: an invalid form changes nothing, a valid one appends one user. */
  function AddUser(us: seq<User>, form: NewUserForm): (r: seq<User>)
    ensures !CanAdd(form) ==> r == us
    ensures CanAdd(form) ==> |r| == |us| + 1 && r[..|us|] == us && r[|us|] == NewUser(form, |us|)
  {
    if !CanAdd(form) then us else us + [NewUser(form, |us|)]
  }

  /** `handleDeleteUser`: every user with that id goes, the rest keep their order. */
  function DeleteUser(us: seq<User>, id: string): (r: seq<User>)
    ensures |r| <= |us|
    ensures forall i :: 0 <= i < |r| ==> r[i].id != id && r[i] in us
    ensures forall i :: 0 <= i < |us| && us[i].id != id ==> us[i] in r
  {
    Keep(us, IdIsNot(id))
  }

  /** Deleting keeps the order of the others: it distributes over concatenation. */
  lemma DeleteUserKeepsOrder(a: seq<User>, b: seq<User>, id: string)
    ensures DeleteUser(a + b, id) == DeleteUser(a, id) + DeleteUser(b, id)
  {
    KeepAppend(a, b, IdIsNot(id));
  }

  /** A single user survives whole or goes: deleting never duplicates a user. */
  lemma DeleteUserUnit(u: User, id: string)
    ensures DeleteUser([u], id) == if u.id != id then [u] else []
  {
    KeepUnit(u, IdIsNot(id));
  }

  /** Deleting a freshly added user, whose id was new, gives back the list before the add. */
  lemma DeleteUndoesAdd(us: seq<User>, form: NewUserForm)
    requires CanAdd(form) && !HasId(us, NewUserId(|us|))
    ensures DeleteUser(AddUser(us, form), NewUserId(|us|)) == us
  {
    var id := NewUserId(|us|);
    KeepAppend(us, [NewUser(form, |us|)], IdIsNot(id));
    KeepAll(us, IdIsNot(id));
    assert Keep([NewUser(form, |us|)], IdIsNot(id)) == [];
  }

  /** The new id is not fresh when a user already carries it: adding then yields two users with one id. */
  lemma AddCanDuplicateId(us: seq<User>, form: NewUserForm, k: nat)
    requires CanAdd(form) && k < |us| && us[k].id == NewUserId(|us|)
    ensures var r := AddUser(us, form); k < |us| < |r| && r[k].id == r[|us|].id
  {
  }

  /** On the sample list, with any user but the last removed, the next add reuses `user-005`. */
  lemma SampleIdCollision(k: nat, form: NewUserForm)
    requires k < 4 && CanAdd(form)
    ensures var d := MockUsers()[..k] + MockUsers()[k + 1..];
      var r := AddUser(d, form);
      |r| == 5 && r[3].id == "user-005" && r[4].id == "user-005"
  {
    var m := MockUsers();
    var d := m[..k] + m[k + 1..];
    assert d[3] == m[4];
    assert NewUserId(4) == "user-005" by {
      assert NatToString(5) == "5";
    }
    AddCanDuplicateId(d, form, 3);
  }

  /** The ids are only three digits wide up to the ninth user; the tenth is `user-0010`. */
  lemma NewUserIdWidth(count: nat)
    ensures |NewUserId(count)| == 8 <==> count < 9
  {
  }

  /** The status a toggle writes: `active` becomes `inactive`, anything else becomes `active`. */
  function NextStatus(status: string): (r: string)
    ensures r == "inactive" <==> status == "active"
    ensures r == "active" <==> status != "active"
  {
    if status == "active" then "inactive" else "active"
  }

  /** `handleToggleUserStatus`. */
  function ToggleStatus(us: seq<User>, id: string): (r: seq<User>)
    ensures |r| == |us|
    ensures forall i :: 0 <= i < |us| && us[i].id == id ==> r[i] == us[i].(status := NextStatus(us[i].status))
    ensures forall i :: 0 <= i < |us| && us[i].id != id ==> r[i] == us[i]
  {
    MapWhere(us, IdIs(id), (u: User) => u.(status := NextStatus(u.status)))
  }

  predicate KnownStatus(u: User) {
    u.status == "active" || u.status == "inactive"
  }

  /** Toggling twice restores every user whose status is `active` or `inactive`. */
  lemma ToggleStatusTwice(us: seq<User>, id: string)
    requires forall i :: 0 <= i < |us| && us[i].id == id ==> KnownStatus(us[i])
    ensures ToggleStatus(ToggleStatus(us, id), id) == us
  {
    var once := ToggleStatus(us, id);
    var twice := ToggleStatus(once, id);
    forall i | 0 <= i < |us| ensures twice[i] == us[i] {
      if us[i].id == id {
        assert once[i] == us[i].(status := NextStatus(us[i].status));
      }
    }
  }

  /** After one toggle the toggled users all have a known status, whatever they had before. */
  lemma ToggleNormalisesStatus(us: seq<User>, id: string)
    ensures forall i :: 0 <= i < |us| && us[i].id == id ==> KnownStatus(ToggleStatus(us, id)[i])
  {
  }

  /** The form's "Active" switch writes `active` or `inactive`, and reads back as it was set. */
  function StatusFromSwitch(checked: bool): (s: string)
    ensures SwitchChecked(s) == checked
  {
    if checked then "active" else "inactive"
  }

  predicate SwitchChecked(status: string) {
    status == "active"
  }

  /** `handleInviteUsers` goes ahead only when the text area holds more than whitespace. */
  predicate CanInvite(emails: string) {
    Trim(emails) != ""
  }

  lemma CanInviteIff(emails: string)
    ensures CanInvite(emails) <==> !AllWhitespace(emails)
  {
    TrimEmptyIff(emails);
  }

  /** The role and status badges: the first character upper-cased, the rest as stored. */
  function Capitalize(s: string): (r: string)
    ensures |r| == |s|
    ensures s != [] ==> r[0] == UpperChar(s[0]) && r[1..] == s[1..]
  {
    if s == [] then "" else [UpperChar(s[0])] + s[1..]
  }

  class UserManagement {
    var users: seq<User>
    var searchQuery: string
    var newUser: NewUserForm
    var inviteEmails: string
    var newUserDialogOpen: bool
    var inviteDialogOpen: bool

    constructor ()
      ensures users == MockUsers() && searchQuery == "" && newUser == EmptyForm()
      ensures inviteEmails == "" && !newUserDialogOpen && !inviteDialogOpen
    {
      users := MockUsers();
      searchQuery := "";
      newUser := EmptyForm();
      inviteEmails := "";
      newUserDialogOpen, inviteDialogOpen := false, false;
    }

    /** The rows the table shows. */
    function Visible(): seq<User>
      reads this
    {
      FilteredUsers(users, searchQuery)
    }

    method SetSearchQuery(query: string)
      modifies this`searchQuery
      ensures searchQuery == query
    {
      searchQuery := query;
    }

    /** The form's name, email, role and department inputs. */
    method EditForm(name: string, email: string, role: string, department: string)
      modifies this`newUser
      ensures newUser == old(newUser).(name := name, email := email, role := role, department := department)
    {
      newUser := newUser.(name := name, email := email, role := role, department := department);
    }

    method SetActive(checked: bool)
      modifies this`newUser
      ensures newUser == old(newUser).(status := StatusFromSwitch(checked))
    {
      newUser := newUser.(status := StatusFromSwitch(checked));
    }

    /** An invalid form leaves everything as it was; a valid one appends, resets the form and closes the dialog. */
    method HandleAddUser() returns (added: bool)
      modifies this`users, this`newUser, this`newUserDialogOpen
      ensures added <==> CanAdd(old(newUser))
      ensures users == AddUser(old(users), old(newUser))
      ensures !added ==> newUser == old(newUser) && newUserDialogOpen == old(newUserDialogOpen)
      ensures added ==> newUser == EmptyForm() && !newUserDialogOpen
    {
      if !CanAdd(newUser) {
        return false;
      }
      users := AddUser(users, newUser);
      newUser := EmptyForm();
      newUserDialogOpen := false;
      added := true;
    }

    method SetInviteEmails(emails: string)
      modifies this`inviteEmails
      ensures inviteEmails == emails
    {
      inviteEmails := emails;
    }

    method HandleInviteUsers() returns (sent: bool)
      modifies this`inviteEmails, this`inviteDialogOpen
      ensures sent <==> CanInvite(old(inviteEmails))
      ensures !sent ==> inviteEmails == old(inviteEmails) && inviteDialogOpen == old(inviteDialogOpen)
      ensures sent ==> inviteEmails == "" && !inviteDialogOpen
    {
      if !CanInvite(inviteEmails) {
        return false;
      }
      inviteEmails := "";
      inviteDialogOpen := false;
      sent := true;
    }

    method HandleToggleUserStatus(id: string)
      modifies this`users
      ensures users == ToggleStatus(old(users), id)
    {
      users := ToggleStatus(users, id);
    }

    method HandleDeleteUser(id: string)
      modifies this`users
      ensures users == DeleteUser(old(users), id)
    {
      users := DeleteUser(users, id);
    }
  }
}
