/** The admin's user-management page: the search box and role filter over the user list,
    the add/edit modal with its form, and the requests it sends. */
module UserAdmin {
  import opened Seqs
  import opened Text
  import opened Domain
  import opened AdminStats

  const AllRoles: string := "all"

  /** The test `filteredUsers` applies, given the lower-cased search term. */
  function UserMatches(needle: string, roleFilter: string): User -> bool
  {
    (u: User) =>
      (Contains(Lower(u.name), needle) || Contains(Lower(u.email), needle)) &&
      (roleFilter == AllRoles || u.role == roleFilter)
  }

  /** `filteredUsers`: the users whose name or email contains the term, ignoring case, and
      whose role passes the role filter, in list order. */
  function FilteredUsers(users: seq<User>, term: string, roleFilter: string): (r: seq<User>)
    ensures Subseq(r, users)
    ensures forall i :: 0 <= i < |r| ==>
      (Contains(Lower(r[i].name), Lower(term)) || Contains(Lower(r[i].email), Lower(term))) &&
      (roleFilter == AllRoles || r[i].role == roleFilter)
    ensures forall j :: (0 <= j < |users| &&
      (Contains(Lower(users[j].name), Lower(term)) || Contains(Lower(users[j].email), Lower(term))) &&
      (roleFilter == AllRoles || users[j].role == roleFilter)) ==> users[j] in r
  {
    FilterIsSubseq(users, UserMatches(Lower(term), roleFilter));
    Filter(users, UserMatches(Lower(term), roleFilter))
  }

  /** An empty search with role "all" lists every user, in order. */
  lemma EmptySearchKeepsAllUsers(users: seq<User>)
    ensures FilteredUsers(users, "", AllRoles) == users
  {
    forall u | u in users
      ensures UserMatches(Lower(""), AllRoles)(u)
    {
      ContainsEmpty(Lower(u.name));
    }
    FilterAll(users, UserMatches(Lower(""), AllRoles));
  }

  /** Two search terms that lower-case alike select the same users. */
  lemma UserSearchIgnoresCase(users: seq<User>, t1: string, t2: string, roleFilter: string)
    requires Lower(t1) == Lower(t2)
    ensures FilteredUsers(users, t1, roleFilter) == FilteredUsers(users, t2, roleFilter)
  {
  }

  /** Searching for a user's exact name, in any case, finds that user. */
  lemma SearchByNameFindsUser(users: seq<User>, j: nat, term: string)
    requires j < |users| && Lower(term) == Lower(users[j].name)
    ensures users[j] in FilteredUsers(users, term, AllRoles)
  {
    ContainsSelf(Lower(users[j].name));
  }

  /** The role counts shown above the table are what the role filter lists with an empty search. */
  lemma RoleCountsMatchRoleFilter(users: seq<User>)
    ensures UserRoleCounts(users).admins == |FilteredUsers(users, "", RoleAdmin)|
    ensures UserRoleCounts(users).drivers == |FilteredUsers(users, "", RoleDriver)|
    ensures UserRoleCounts(users).customers == |FilteredUsers(users, "", RoleUser)|
  {
    forall i | 0 <= i < |users|
      ensures Contains(Lower(users[i].name), Lower(""))
    {
      ContainsEmpty(Lower(users[i].name));
    }
    FilterSame(users, KeyIs(RoleOf, RoleAdmin), UserMatches(Lower(""), RoleAdmin));
    FilterSame(users, KeyIs(RoleOf, RoleDriver), UserMatches(Lower(""), RoleDriver));
    FilterSame(users, KeyIs(RoleOf, RoleUser), UserMatches(Lower(""), RoleUser));
  }

  /** The modal's form. Name, email and password have no input on the form. */
  datatype UserForm = UserForm(
    name: string,
    email: string,
    password: string,
    role: string,
    img: string,
    rating: real)

  /** The form for a new user. */
  function NewUserForm(): (f: UserForm)
    ensures f.role == RoleUser && f.rating == 0.0
    ensures f.name == "" && f.email == "" && f.password == "" && f.img == ""
  {
    UserForm("", "", "", RoleUser, "", 0.0)
  }

  /** `x || 0` for an optional rating: missing (or 0) becomes 0. */
  function RatingOrZero(r: Option<real>): (v: real)
    ensures r.Some? ==> v == r.value
    ensures r.None? ==> v == 0.0
  {
    if r.Some? then r.value else 0.0
  }

  /** `x || ''` for an optional text. */
  function TextOrEmpty(t: Option<string>): (v: string)
    ensures t.Some? ==> v == t.value
    ensures t.None? ==> v == ""
  {
    if t.Some? then t.value else ""
  }

  /** The form for editing `u`: its fields, an empty password, missing image and rating as
      '' and 0. */
  function EditUserForm(u: User): (f: UserForm)
    ensures f.name == u.name && f.email == u.email && f.password == "" && f.role == u.role
    ensures f.img == TextOrEmpty(u.img) && f.rating == RatingOrZero(u.rating)
  {
    UserForm(u.name, u.email, "", u.role, TextOrEmpty(u.img), RatingOrZero(u.rating))
  }

  /** The body of `createUser`: the whole form. */
  function CreateUserBody(f: UserForm): (b: Body)
    ensures b.Keys == {"name", "email", "password", "role", "img", "rating"}
    ensures b["role"] == Text(f.role) && b["rating"] == Number(f.rating)
  {
    map["name" := Text(f.name), "email" := Text(f.email), "password" := Text(f.password),
        "role" := Text(f.role), "img" := Text(f.img), "rating" := Number(f.rating)]
  }

  /** The body of `updateUser`: role, image and rating only. */
  function UpdateUserBody(f: UserForm): (b: Body)
    ensures b.Keys == {"role", "img", "rating"}
    ensures "name" !in b && "email" !in b && "password" !in b
    ensures b["role"] == Text(f.role) && b["img"] == Text(f.img) && b["rating"] == Number(f.rating)
  {
    map["role" := Text(f.role), "img" := Text(f.img), "rating" := Number(f.rating)]
  }

  /** What the modal's submit sends. */
  datatype UserRequest = CreateUser(body: Body) | UpdateUser(id: string, body: Body)

  /** The page's modal and search state. */
  class UsersPage {
    var showModal: bool
    var isEditing: bool
    var selectedUser: Option<User>
    var searchTerm: string
    var roleFilter: string
    var form: UserForm

    constructor ()
      ensures !showModal && !isEditing && selectedUser == None
      ensures searchTerm == "" && roleFilter == AllRoles && form == NewUserForm()
    {
      showModal := false;
      isEditing := false;
      selectedUser := None;
      searchTerm := "";
      roleFilter := AllRoles;
      form := NewUserForm();
    }

    /** `handleOpenModal(user?)`: edit a given user, or start a new one. */
    method OpenModal(user: Option<User>)
      modifies this
      ensures showModal && isEditing == user.Some? && selectedUser == user
      ensures form == if user.Some? then EditUserForm(user.value) else NewUserForm()
      ensures searchTerm == old(searchTerm) && roleFilter == old(roleFilter)
    {
      if user.Some? {
        isEditing := true;
        selectedUser := user;
        form := EditUserForm(user.value);
      } else {
        isEditing := false;
        selectedUser := None;
        form := NewUserForm();
      }
      showModal := true;
    }

    /** `handleCloseModal`: the form keeps its values until the modal is opened again. */
    method CloseModal()
      modifies this
      ensures !showModal && !isEditing && selectedUser == None
      ensures form == old(form) && searchTerm == old(searchTerm) && roleFilter == old(roleFilter)
    {
      showModal := false;
      isEditing := false;
      selectedUser := None;
    }

    /** `handleSubmit` up to its await: an update when editing a selected user, else a create. */
    method Submit() returns (req: UserRequest)
      ensures isEditing && selectedUser.Some? ==> req == UpdateUser(selectedUser.value.id, UpdateUserBody(form))
      ensures !(isEditing && selectedUser.Some?) ==> req == CreateUser(CreateUserBody(form))
    {
      if isEditing && selectedUser.Some? {
        req := UpdateUser(selectedUser.value.id, UpdateUserBody(form));
      } else {
        req := CreateUser(CreateUserBody(form));
      }
    }

    /** `handleSubmit` after its await: only a fulfilled request closes the modal and
        refetches the users. */
    method SubmitSettled(fulfilled: bool) returns (refetch: bool)
      modifies this
      ensures refetch == fulfilled
      ensures fulfilled ==> !showModal && !isEditing && selectedUser == None
      ensures !fulfilled ==>
        showModal == old(showModal) && isEditing == old(isEditing) && selectedUser == old(selectedUser)
      ensures form == old(form) && searchTerm == old(searchTerm) && roleFilter == old(roleFilter)
    {
      refetch := false;
      if fulfilled {
        CloseModal();
        refetch := true;
      }
    }

    /** The search box and the role dropdown. */
    method SetSearch(term: string, role: string)
      modifies this
      ensures searchTerm == term && roleFilter == role
      ensures showModal == old(showModal) && isEditing == old(isEditing)
      ensures selectedUser == old(selectedUser) && form == old(form)
    {
      searchTerm := term;
      roleFilter := role;
    }

    /** The rows of the table. */
    function Rows(users: seq<User>): seq<User>
      reads this
    {
      FilteredUsers(users, searchTerm, roleFilter)
    }
  }

  /** Editing a user and submitting unchanged sends back their role and, when present,
      their image and rating. */
  method EditUnchanged(u: User) returns (req: UserRequest)
    ensures req.UpdateUser? && req.id == u.id && req.body.Keys == {"role", "img", "rating"}
    ensures req.body["role"] == Text(u.role)
    ensures u.img.Some? ==> req.body["img"] == Text(u.img.value)
    ensures u.rating.Some? ==> req.body["rating"] == Number(u.rating.value)
  {
    var page := new UsersPage();
    page.OpenModal(Some(u));
    req := page.Submit();
  }
}
