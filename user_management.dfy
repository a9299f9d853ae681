/** The user administration screen (src/components/users/UserManagement.tsx):
    a local user list seeded with four sample users, a dialog that creates a
    user or edits one, and deletion after confirmation, with the delete
    button disabled for administrators. */
module UserManagement {
  import opened Wrappers
  import opened AppTypes
  import opened Seqs

  /** `UserFormData`; an absent Discord id is edited as the empty string. */
  datatype UserForm = UserForm(name: string, email: string, discordId: string, role: UserRole)

  const BlankForm := UserForm("", "", "", Developer)

  const DeleteConfirmText := "このユーザーを削除してもよろしいですか？"

  /** `mockUsers`, with their fixed dates as midnight UTC in milliseconds. */
  const MockUsers: seq<User> := [
    User("1", "田中太郎", "tanaka@example.com", Some("tanaka#1234"), Developer, [], 1735689600000, 1756512000000),
    User("2", "佐藤花子", "sato@example.com", Some("sato#5678"), Developer, [], 1736899200000, 1756425600000),
    User("3", "鈴木一郎", "suzuki@example.com", Some("suzuki#9012"), Manager, [], 1733011200000, 1756339200000),
    User("4", "高橋次郎", "takahashi@example.com", None, Admin, [], 1730419200000, 1756598400000)
  ]

  /** The form `handleOpenForm` fills in for `user`, or the blank form. */
  function FormFor(user: Option<User>): (f: UserForm)
    ensures user.None? ==> f == BlankForm
    ensures user.Some? ==> f.name == user.value.name && f.email == user.value.email && f.role == user.value.role
    ensures user.Some? && Truthy(user.value.discordId) ==> f.discordId == user.value.discordId.value
    ensures user.Some? && !Truthy(user.value.discordId) ==> f.discordId == ""
  {
    match user
    case None => BlankForm
    case Some(u) =>
      UserForm(u.name, u.email, if Truthy(u.discordId) then u.discordId.value else "", u.role)
  }

  /** `{ ...user, ...formData, updatedAt }`: the form's fields over the user. */
  function Merge(user: User, form: UserForm, now: Instant): (r: User)
    ensures r.id == user.id && r.permissions == user.permissions && r.createdAt == user.createdAt
    ensures r.name == form.name && r.email == form.email && r.role == form.role
    ensures r.discordId == Some(form.discordId) && r.updatedAt == now
  {
    user.(name := form.name, email := form.email, discordId := Some(form.discordId),
          role := form.role, updatedAt := now)
  }

  function MergeIfId(id: string, form: UserForm, now: Instant): User -> User {
    (u: User) => if u.id == id then Merge(u, form, now) else u
  }

  /** The list after saving an edit of the user with `id`. */
  function AfterEdit(users: seq<User>, id: string, form: UserForm, now: Instant): (r: seq<User>)
    ensures |r| == |users|
    ensures forall i :: 0 <= i < |users| && users[i].id != id ==> r[i] == users[i]
    ensures forall i :: 0 <= i < |users| && users[i].id == id ==>
      && r[i].id == id && r[i].name == form.name && r[i].email == form.email
      && r[i].discordId == Some(form.discordId) && r[i].role == form.role
      && r[i].permissions == users[i].permissions
      && r[i].createdAt == users[i].createdAt && r[i].updatedAt == now
  {
    Map(users, MergeIfId(id, form, now))
  }

  /** The user a creation appends; `id` and `now` stand for
      `Date.now().toString()` and `new Date()`. */
  function NewUser(form: UserForm, id: string, now: Instant): (u: User)
    ensures u.id == id && u.permissions == [] && u.createdAt == now && u.updatedAt == now
    ensures u.name == form.name && u.email == form.email
    ensures u.discordId == Some(form.discordId) && u.role == form.role
  {
    User(id, form.name, form.email, Some(form.discordId), form.role, [], now, now)
  }

  function UserIdIsNot(id: string): User -> bool { (u: User) => u.id != id }

  /** The delete button of a row is disabled for administrators. */
  function DeleteDisabled(user: User): (disabled: bool)
    ensures disabled <==> user.role.Admin?
  {
    user.role == Admin
  }

  class UserScreen {
    var users: seq<User>
    var formOpen: bool
    var editingUser: Option<User>
    var formData: UserForm

    /** A user is only being edited inside the open dialog. */
    ghost predicate Valid()
      reads this
    {
      editingUser.Some? ==> formOpen
    }

    constructor()
      ensures users == MockUsers && !formOpen && editingUser == None && formData == BlankForm
      ensures Valid()
    {
      users := MockUsers;
      formOpen := false;
      editingUser := None;
      formData := BlankForm;
    }

    /** The row's edit button (`Some(user)`) or 新規ユーザー追加 (`None`). */
    method HandleOpenForm(user: Option<User>)
      modifies this
      ensures editingUser == user && formData == FormFor(user) && formOpen
      ensures users == old(users) && Valid()
    {
      editingUser := user;
      formData := FormFor(user);
      formOpen := true;
    }

    method HandleCloseForm()
      modifies this
      ensures !formOpen && editingUser == None
      ensures users == old(users) && formData == old(formData) && Valid()
    {
      formOpen := false;
      editingUser := None;
    }

    /** The dialog's inputs. */
    method EditForm(form: UserForm)
      modifies this
      ensures formData == form
      ensures users == old(users) && formOpen == old(formOpen) && editingUser == old(editingUser)
    {
      formData := form;
    }

    /** Saves the dialog: merges into the user being edited, or appends a
        new user; then closes the dialog. */
    method HandleSubmit(id: string, now: Instant)
      modifies this
      ensures old(editingUser).Some? ==> users == AfterEdit(old(users), old(editingUser).value.id, old(formData), now)
      ensures old(editingUser).None? ==> users == old(users) + [NewUser(old(formData), id, now)]
      ensures !formOpen && editingUser == None && formData == old(formData) && Valid()
    {
      if editingUser.Some? {
        users := Map(users, MergeIfId(editingUser.value.id, formData, now));
      } else {
        users := users + [NewUser(formData, id, now)];
      }
      HandleCloseForm();
    }

    /** Deletes after the confirmation `confirmed`; the handler itself does
        not look at the role. */
    method HandleDeleteUser(id: string, confirmed: bool)
      modifies this
      ensures users == if confirmed then Filter(old(users), UserIdIsNot(id)) else old(users)
      ensures formOpen == old(formOpen) && editingUser == old(editingUser) && formData == old(formData)
    {
      if confirmed {
        users := Filter(users, UserIdIsNot(id));
      }
    }
  }

  /** Whether no two users share an id. */
  predicate UniqueIds(users: seq<User>) {
    forall i, j :: 0 <= i < |users| && 0 <= j < |users| && users[i].id == users[j].id ==> i == j
  }

  /** Deleting through an enabled button keeps every administrator, when
      ids are unique. */
  lemma {:induction false} AdminsSurviveEnabledDelete(users: seq<User>, target: User, admin: User)
    requires UniqueIds(users)
    requires target in users && !DeleteDisabled(target)
    requires admin in users && admin.role == Admin
    ensures admin in Filter(users, UserIdIsNot(target.id))
  {
    FilterMembership(users, UserIdIsNot(target.id), admin);
  }

  /** Deleting removes every user with the id and keeps the rest in order. */
  lemma {:induction false} DeleteRemovesExactly(users: seq<User>, id: string, u: User)
    ensures u in Filter(users, UserIdIsNot(id)) <==> u in users && u.id != id
    ensures IsSubsequence(Filter(users, UserIdIsNot(id)), users)
  {
    FilterMembership(users, UserIdIsNot(id), u);
    FilterIsSubsequence(users, UserIdIsNot(id));
  }

  /** Opening the edit dialog on a user and saving unchanged keeps the
      user's name, email and role, turns an absent Discord id into the
      empty one, and only moves `updatedAt`. */
  lemma EditUnchangedRoundTrip(user: User, now: Instant)
    ensures Merge(user, FormFor(Some(user)), now).(updatedAt := user.updatedAt)
         == user.(discordId := Some(FormFor(Some(user)).discordId))
    ensures Truthy(user.discordId) ==> Merge(user, FormFor(Some(user)), now) == user.(updatedAt := now)
    ensures user.discordId == None ==> Merge(user, FormFor(Some(user)), now).discordId == Some("")
  {
  }

  /** An edit changes no other user and keeps the number of users; ids are unchanged. */
  lemma {:induction false} EditKeepsIds(users: seq<User>, id: string, form: UserForm, now: Instant)
    ensures Map(AfterEdit(users, id, form, now), (u: User) => u.id) == Map(users, (u: User) => u.id)
  {
  }

  /** Every way the screen changes the list keeps ids unique: an edit keeps
      every id, a delete only drops users, and a creation adds a user whose
      id is new. */
  lemma {:induction false} OperationsKeepUniqueIds(users: seq<User>, id: string, form: UserForm, now: Instant, newId: string)
    requires UniqueIds(users)
    ensures UniqueIds(AfterEdit(users, id, form, now))
    ensures UniqueIds(Filter(users, UserIdIsNot(id)))
    ensures (forall i :: 0 <= i < |users| ==> users[i].id != newId) ==> UniqueIds(users + [NewUser(form, newId, now)])
  {
    var edited := AfterEdit(users, id, form, now);
    assert forall i :: 0 <= i < |users| ==> edited[i].id == users[i].id;
    FilterKeepsUniqueIds(users, id);
    if forall i :: 0 <= i < |users| ==> users[i].id != newId {
      var added := users + [NewUser(form, newId, now)];
      assert forall i :: 0 <= i < |users| ==> added[i] == users[i];
    }
  }

  lemma {:induction false} FilterKeepsUniqueIds(users: seq<User>, id: string)
    requires UniqueIds(users)
    ensures UniqueIds(Filter(users, UserIdIsNot(id)))
  {
    if users != [] {
      var tail := users[1..];
      assert forall i :: 0 <= i < |tail| ==> tail[i] == users[i + 1];
      FilterKeepsUniqueIds(tail, id);
      var rest := Filter(tail, UserIdIsNot(id));
      forall k | 0 <= k < |rest|
        ensures rest[k].id != users[0].id
      {
        FilterMembership(tail, UserIdIsNot(id), rest[k]);
        var j :| 0 <= j < |tail| && tail[j] == rest[k];
        assert users[j + 1] == rest[k];
      }
      if UserIdIsNot(id)(users[0]) {
        var r := [users[0]] + rest;
        assert Filter(users, UserIdIsNot(id)) == r;
        forall a, b | 0 <= a < |r| && 0 <= b < |r| && r[a].id == r[b].id
          ensures a == b
        {
          if a > 0 && b > 0 {
            assert r[a] == rest[a - 1] && r[b] == rest[b - 1];
          }
        }
      }
    }
  }

  /** The sample's only administrator is 高橋次郎, whose delete button is disabled. */
  lemma SampleAdmin()
    ensures DeleteDisabled(MockUsers[3]) && MockUsers[3].name == "高橋次郎"
    ensures forall i :: 0 <= i < 3 ==> !DeleteDisabled(MockUsers[i])
    ensures UniqueIds(MockUsers)
  {
  }
}
