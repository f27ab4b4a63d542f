/** Account creation through the custom user manager: the required-field
    guards of `create_user`, the flag defaults and strict checks of
    `create_superuser`, and the uniqueness of username and email that
    saving a user enforces. */
module Accounts {
  import opened Outcomes

  /** A value passed as an extra keyword field: exactly `True` or `False`,
      or any other object (`1`, `"yes"`, `None`, ...), kept by its repr. */
  datatype Value = Bool(b: bool) | Other(repr: string)

  /** The extra fields the manager reads or defaults. */
  datatype Flag = IsActive | IsStaff | IsSuperuser

  type Fields = map<Flag, Value>

  /** A stored user. `passwordHash` is what `set_password` stored. */
  datatype Account = Account(
    username: string,
    email: string,
    passwordHash: string,
    isActive: Value,
    isStaff: Value,
    isSuperuser: Value)

  /** The ValueErrors of the manager, and the integrity error of `save`. */
  datatype AccountError = UsernameMissing | EmailMissing | NotStaff | NotSuperuser | Duplicate

  /** The value a flag takes on a new user: the one passed, else the
      model's default. */
  function FieldOr(fields: Fields, f: Flag, default: bool): Value
  {
    if f in fields then fields[f] else Bool(default)
  }

  /** `dict.setdefault`: keep a present entry, add a missing one. */
  function SetDefault(fields: Fields, f: Flag, v: Value): (r: Fields)
    ensures f in r && r[f] == (if f in fields then fields[f] else v)
    ensures forall g :: g in fields ==> g in r && r[g] == fields[g]
    ensures r.Keys == fields.Keys + {f}
  {
    if f in fields then fields else fields[f := v]
  }

  /** `self.model(username=..., email=..., **extra_fields)` before the
      password is set: a user is active, not staff and not superuser
      unless the extra fields say otherwise. */
  function NewAccount(username: string, email: string, fields: Fields): Account
  {
    Account(username, email, "", FieldOr(fields, IsActive, true),
            FieldOr(fields, IsStaff, false), FieldOr(fields, IsSuperuser, false))
  }

  /** Some stored user already has this username or this email. */
  predicate Taken(saved: seq<Account>, username: string, email: string)
  {
    exists i :: 0 <= i < |saved| && (saved[i].username == username || saved[i].email == email)
  }

  /** No two stored users share a username or an email. */
  ghost predicate Unique(saved: seq<Account>)
  {
    forall i, j :: 0 <= i < j < |saved| ==>
      saved[i].username != saved[j].username && saved[i].email != saved[j].email
  }

  /** The outcome of `create_user` against the users already stored.
      `normalize` stands for `normalize_email` and `hash` for the
      password hashing of `set_password`. */
  function CreateUserResult(saved: seq<Account>, username: string, email: string, password: string,
                            fields: Fields, normalize: string -> string, hash: string -> string)
    : (r: Result<Account, AccountError>)
    ensures r == Err(UsernameMissing) <==> username == ""
    ensures r == Err(EmailMissing) <==> username != "" && email == ""
    ensures r == Err(Duplicate) <==> username != "" && email != "" && Taken(saved, username, normalize(email))
    ensures r.Err? ==> r.error in {UsernameMissing, EmailMissing, Duplicate}
    ensures r.Ok? ==> r.value.username == username && r.value.email == normalize(email)
                      && r.value.passwordHash == hash(password)
    ensures r.Ok? ==> !Taken(saved, r.value.username, r.value.email)
    ensures r.Ok? ==> (IsActive in fields ==> r.value.isActive == fields[IsActive])
                      && (IsStaff in fields ==> r.value.isStaff == fields[IsStaff])
                      && (IsSuperuser in fields ==> r.value.isSuperuser == fields[IsSuperuser])
    ensures r.Ok? ==> (IsActive !in fields ==> r.value.isActive == Bool(true))
                      && (IsStaff !in fields ==> r.value.isStaff == Bool(false))
                      && (IsSuperuser !in fields ==> r.value.isSuperuser == Bool(false))
  {
    if username == "" then Err(UsernameMissing)
    else if email == "" then Err(EmailMissing)
    else if Taken(saved, username, normalize(email)) then Err(Duplicate)
    else Ok(NewAccount(username, normalize(email), fields).(passwordHash := hash(password)))
  }

  /** The extra fields of `create_superuser` after its three `setdefault`s. */
  function SuperuserFields(fields: Fields): (r: Fields)
    ensures r.Keys == fields.Keys + {IsStaff, IsSuperuser, IsActive}
    ensures forall f :: f in fields ==> r[f] == fields[f]
    ensures forall f :: f in r && f !in fields ==> r[f] == Bool(true)
  {
    SetDefault(SetDefault(SetDefault(fields, IsStaff, Bool(true)), IsSuperuser, Bool(true)), IsActive, Bool(true))
  }

  /** The outcome of `create_superuser`: both flag checks come before
      anything `create_user` checks, and they accept only `True` itself. */
  function CreateSuperuserResult(saved: seq<Account>, username: string, email: string, password: string,
                                 fields: Fields, normalize: string -> string, hash: string -> string)
    : (r: Result<Account, AccountError>)
    ensures r == Err(NotStaff) <==> IsStaff in fields && fields[IsStaff] != Bool(true)
    ensures r == Err(NotSuperuser) <==>
              (IsStaff !in fields || fields[IsStaff] == Bool(true))
              && IsSuperuser in fields && fields[IsSuperuser] != Bool(true)
    ensures r.Ok? ==> r.value.isStaff == Bool(true) && r.value.isSuperuser == Bool(true)
    ensures r.Ok? ==> r.value.isActive == (if IsActive in fields then fields[IsActive] else Bool(true))
    ensures r.Ok? ==> r.value.username == username && r.value.email == normalize(email)
                      && r.value.passwordHash == hash(password)
  {
    var fs := SuperuserFields(fields);
    if fs[IsStaff] != Bool(true) then Err(NotStaff)
    else if fs[IsSuperuser] != Bool(true) then Err(NotSuperuser)
    else CreateUserResult(saved, username, email, password, fs, normalize, hash)
  }

  /** `User.__str__`. */
  function UserStr(a: Account): (r: string)
    ensures r == a.username
  {
    a.username
  }

  // ----- Properties -----

  /** An ordinary user created without extra fields is active, not staff
      and not superuser. */
  lemma PlainUserDefaults(saved: seq<Account>, username: string, email: string, password: string,
                          normalize: string -> string, hash: string -> string)
    requires CreateUserResult(saved, username, email, password, map[], normalize, hash).Ok?
    ensures var a := CreateUserResult(saved, username, email, password, map[], normalize, hash).value;
            a.isActive == Bool(true) && a.isStaff == Bool(false) && a.isSuperuser == Bool(false)
  {
  }

  /** When both required fields are empty, the username error wins. */
  lemma UsernameCheckedFirst(saved: seq<Account>, password: string, fields: Fields,
                             normalize: string -> string, hash: string -> string)
    ensures CreateUserResult(saved, "", "", password, fields, normalize, hash) == Err(UsernameMissing)
    ensures CreateSuperuserResult(saved, "", "", password, map[], normalize, hash) == Err(UsernameMissing)
  {
  }

  /** A superuser created without extra fields is active, staff and
      superuser. */
  lemma SuperuserDefaults(saved: seq<Account>, username: string, email: string, password: string,
                          normalize: string -> string, hash: string -> string)
    requires CreateSuperuserResult(saved, username, email, password, map[], normalize, hash).Ok?
    ensures var a := CreateSuperuserResult(saved, username, email, password, map[], normalize, hash).value;
            a.isActive == Bool(true) && a.isStaff == Bool(true) && a.isSuperuser == Bool(true)
  {
  }

  /** Any explicit `is_staff` or `is_superuser` other than `True` itself
      (`False`, `1`, `"True"`, ...) is refused, whatever else is wrong or
      already stored. */
  lemma SuperuserFlagsAreStrict(saved: seq<Account>, username: string, email: string, password: string,
                                v: Value, normalize: string -> string, hash: string -> string)
    requires v != Bool(true)
    ensures CreateSuperuserResult(saved, username, email, password, map[IsStaff := v], normalize, hash)
            == Err(NotStaff)
    ensures CreateSuperuserResult(saved, username, email, password, map[IsSuperuser := v], normalize, hash)
            == Err(NotSuperuser)
  {
  }

  /** Once the flags pass, `create_superuser` is `create_user` on the
      defaulted fields, so the required-field and uniqueness errors still
      apply. */
  lemma SuperuserDelegates(saved: seq<Account>, username: string, email: string, password: string,
                           fields: Fields, normalize: string -> string, hash: string -> string)
    requires IsStaff in fields ==> fields[IsStaff] == Bool(true)
    requires IsSuperuser in fields ==> fields[IsSuperuser] == Bool(true)
    ensures CreateSuperuserResult(saved, username, email, password, fields, normalize, hash)
            == CreateUserResult(saved, username, email, password, SuperuserFields(fields), normalize, hash)
  {
  }

  /** Adding an account whose username and email are free keeps the stored
      users unique. */
  lemma {:induction false} AppendKeepsUnique(saved: seq<Account>, a: Account)
    requires Unique(saved) && !Taken(saved, a.username, a.email)
    ensures Unique(saved + [a])
  {
    var s := saved + [a];
    forall i, j | 0 <= i < j < |s|
      ensures s[i].username != s[j].username && s[i].email != s[j].email
    {
      if j == |saved| {
        assert s[i] == saved[i] && s[j] == a;
      }
    }
  }

  /** Among stored users, the rendering names exactly one user. */
  lemma UserStrIdentifies(saved: seq<Account>, i: nat, j: nat)
    requires Unique(saved) && i < |saved| && j < |saved|
    ensures UserStr(saved[i]) == UserStr(saved[j]) <==> i == j
  {
    if i < j {
      assert saved[i].username != saved[j].username;
    } else if j < i {
      assert saved[j].username != saved[i].username;
    }
  }

  // ----- The manager, over the stored users -----

  class UserManager {
    var saved: seq<Account>

    ghost predicate Valid()
      reads this
    {
      Unique(saved)
    }

    constructor ()
      ensures Valid() && saved == []
    {
      saved := [];
    }

    /** `create_user`: check the required fields, build the user, set its
        password, then save it unless its username or email is taken. */
    method CreateUser(username: string, email: string, password: string, fields: Fields,
                      normalize: string -> string, hash: string -> string)
      returns (r: Result<Account, AccountError>)
      requires Valid()
      modifies this
      ensures Valid()
      ensures r == CreateUserResult(old(saved), username, email, password, fields, normalize, hash)
      ensures saved == if r.Ok? then old(saved) + [r.value] else old(saved)
    {
      if username == "" {
        return Err(UsernameMissing);
      }
      if email == "" {
        return Err(EmailMissing);
      }
      var normalized := normalize(email);
      var user := NewAccount(username, normalized, fields);
      user := user.(passwordHash := hash(password));
      if Taken(saved, user.username, user.email) {
        return Err(Duplicate);
      }
      AppendKeepsUnique(saved, user);
      saved := saved + [user];
      r := Ok(user);
    }

    /** `create_superuser`: default the three flags in place, insist on
        `is_staff` and `is_superuser` being `True`, then delegate. */
    method CreateSuperuser(username: string, email: string, password: string, extra: Fields,
                           normalize: string -> string, hash: string -> string)
      returns (r: Result<Account, AccountError>)
      requires Valid()
      modifies this
      ensures Valid()
      ensures r == CreateSuperuserResult(old(saved), username, email, password, extra, normalize, hash)
      ensures saved == if r.Ok? then old(saved) + [r.value] else old(saved)
    {
      var fields := extra;
      fields := SetDefault(fields, IsStaff, Bool(true));
      fields := SetDefault(fields, IsSuperuser, Bool(true));
      fields := SetDefault(fields, IsActive, Bool(true));
      if fields[IsStaff] != Bool(true) {
        return Err(NotStaff);
      }
      if fields[IsSuperuser] != Bool(true) {
        return Err(NotSuperuser);
      }
      r := CreateUser(username, email, password, fields, normalize, hash);
    }
  }

  /** `test_create_user`, on an empty user table and with `normalize_email`
      leaving the already normalized address alone: the ordinary user keeps
      its username and email and has the default flags, and empty fields are
      refused. */
  method CreateUserTest(normalize: string -> string, hash: string -> string)
    returns (user: Result<Account, AccountError>, blank: Result<Account, AccountError>)
    requires normalize("user123@gmail.com") == "user123@gmail.com"
    ensures user.Ok? && user.value.username == "user123" && user.value.email == "user123@gmail.com"
    ensures user.value.isActive == Bool(true) && user.value.isStaff == Bool(false)
            && user.value.isSuperuser == Bool(false)
    ensures blank == Err(UsernameMissing)
  {
    var users := new UserManager();
    user := users.CreateUser("user123", "user123@gmail.com", "test123", map[], normalize, hash);
    blank := users.CreateUser("", "", "test123", map[], normalize, hash);
  }

  /** `test_create_superuser`, on an empty user table: the superuser carries
      all three flags, and an explicit `is_superuser=False` is refused
      although the username is then taken. */
  method CreateSuperuserTest(normalize: string -> string, hash: string -> string)
    returns (admin: Result<Account, AccountError>, refused: Result<Account, AccountError>)
    requires normalize("super_user123@gmail.com") == "super_user123@gmail.com"
    ensures admin.Ok? && admin.value.username == "super_user123" && admin.value.email == "super_user123@gmail.com"
    ensures admin.value.isActive == Bool(true) && admin.value.isStaff == Bool(true)
            && admin.value.isSuperuser == Bool(true)
    ensures refused == Err(NotSuperuser)
  {
    var users := new UserManager();
    admin := users.CreateSuperuser("super_user123", "super_user123@gmail.com", "test123", map[], normalize, hash);
    refused := users.CreateSuperuser("super_user123", "super_user@gmail.com", "test123",
                                     map[IsSuperuser := Bool(false)], normalize, hash);
  }
}
