/**
 * `UserManager` (e_ride/base/managers.py): argument checks and flag defaulting for new users and
 * superusers. The keyword arguments are a map from field name to Python value that `setdefault`
 * updates; the user is built, given a password hash and saved.
 */
module UserManager {
  import opened Wrappers
  import opened Py

  const IsSuperuser := "is_superuser"
  const IsStaff := "is_staff"
  const IsActive := "is_active"

  /** The user row under construction. */
  class User {
    var email: string
    var username: string
    /** The remaining model fields, as passed by keyword. */
    var extra: map<string, Value>
    /** The stored password hash. */
    var password: string
    var saved: bool

    /** `self.model(email=email, username=username, **kwargs)`. */
    constructor(email: string, username: string, extra: map<string, Value>)
      ensures this.email == email && this.username == username && this.extra == extra
      ensures password == "" && !saved
    {
      this.email := email;
      this.username := username;
      this.extra := extra;
      password := "";
      saved := false;
    }

    /** `set_password`: stores the hash of the raw password. */
    method SetPassword(h: Host, raw: string)
      modifies this`password
      ensures password == h.makePassword(raw)
    {
      password := h.makePassword(raw);
    }

    /** `save`: the row is written. */
    method Save()
      modifies this`saved
      ensures saved
    {
      saved := true;
    }
  }

  /** `kw.setdefault(key, value)`: adds the entry only when the key is absent. */
  function SetDefault(kw: map<string, Value>, key: string, value: Value): (r: map<string, Value>)
    ensures r.Keys == kw.Keys + {key}
    ensures forall k :: k in kw ==> r[k] == kw[k]
    ensures key !in kw ==> r[key] == value
  {
    if key in kw then kw else kw[key := value]
  }

  /** The three flags defaulted, in source order, to `VBool(flag)`. */
  function Defaults(kw: map<string, Value>, flag: bool): map<string, Value>
  {
    SetDefault(SetDefault(SetDefault(kw, IsSuperuser, VBool(flag)), IsStaff, VBool(flag)), IsActive, VBool(flag))
  }

  /** Defaulting adds exactly the three flags, keeps every caller-supplied value and fills the rest with `flag`. */
  lemma DefaultsKeepCallerValues(kw: map<string, Value>, flag: bool)
    ensures Defaults(kw, flag).Keys == kw.Keys + {IsSuperuser, IsStaff, IsActive}
    ensures forall k :: k in kw ==> Defaults(kw, flag)[k] == kw[k]
    ensures forall k :: k in {IsSuperuser, IsStaff, IsActive} && k !in kw ==> Defaults(kw, flag)[k] == VBool(flag)
  {
  }

  /** Why a creation call raises `ValueError`. */
  datatype Refusal = UsernameRequired | EmailRequired | SuperuserFlagRequired | StaffFlagRequired

  /** Python truthiness of an optional string: `None` and `''` are false. */
  predicate Truthy(s: Option<string>)
  {
    s.Some? && s.value != ""
  }

  /** `create_user`'s checks, username first. */
  function UserRefusal(email: Option<string>, username: Option<string>): (r: Option<Refusal>)
    ensures r.None? <==> Truthy(username) && Truthy(email)
    ensures !Truthy(username) ==> r == Some(UsernameRequired)
    ensures Truthy(username) && !Truthy(email) ==> r == Some(EmailRequired)
  {
    if !Truthy(username) then Some(UsernameRequired)
    else if !Truthy(email) then Some(EmailRequired)
    else None
  }

  /** `kw.get(key)`. */
  function Get(kw: map<string, Value>, key: string): Option<Value>
  {
    if key in kw then Some(kw[key]) else None
  }

  /** `create_superuser`'s checks on the defaulted flags: each must be the object `True`. */
  function SuperuserRefusal(kw: map<string, Value>): (r: Option<Refusal>)
    ensures r.None? <==> Get(kw, IsSuperuser) == Some(VBool(true)) && Get(kw, IsStaff) == Some(VBool(true))
    ensures Get(kw, IsSuperuser) != Some(VBool(true)) ==> r == Some(SuperuserFlagRequired)
  {
    if Get(kw, IsSuperuser) != Some(VBool(true)) then Some(SuperuserFlagRequired)
    else if Get(kw, IsStaff) != Some(VBool(true)) then Some(StaffFlagRequired)
    else None
  }

  /** The privilege flags after defaulting are the caller's, or True when the caller passed none. */
  lemma SuperuserFlags(kw: map<string, Value>)
    ensures Get(Defaults(kw, true), IsSuperuser) == Some(if IsSuperuser in kw then kw[IsSuperuser] else VBool(true))
    ensures Get(Defaults(kw, true), IsStaff) == Some(if IsStaff in kw then kw[IsStaff] else VBool(true))
  {
    DefaultsKeepCallerValues(kw, true);
  }

  /** A superuser is refused exactly when the caller passed a privilege flag that is not `True`. */
  lemma SuperuserRefusedIff(kw: map<string, Value>)
    ensures SuperuserRefusal(Defaults(kw, true)).None?
      <==> (IsSuperuser in kw ==> kw[IsSuperuser] == VBool(true)) && (IsStaff in kw ==> kw[IsStaff] == VBool(true))
  {
    SuperuserFlags(kw);
  }

  /** `is_active` is never looked at: whatever the caller passes for it, the checks decide the same. */
  lemma ActiveFlagUnchecked(kw: map<string, Value>, v: Value)
    ensures SuperuserRefusal(Defaults(kw[IsActive := v], true)) == SuperuserRefusal(Defaults(kw, true))
  {
    SuperuserFlags(kw);
    SuperuserFlags(kw[IsActive := v]);
  }

  /**
   * Python binds `email`, `password` and `username` to the named parameters, so `**kwargs`
   * never holds them (a caller repeating one fails at the call, before the manager runs).
   */
  predicate KeywordsOnly(kw: map<string, Value>)
  {
    "email" !in kw && "username" !in kw && "password" !in kw
  }

  /** What `_create` leaves behind: a saved user with these fields and the hashed password. */
  predicate Built(h: Host, user: User, email: string, password: string, username: string, kw: map<string, Value>)
    reads user
  {
    && user.email == email && user.username == username && user.extra == kw
    && user.password == h.makePassword(password) && user.saved
  }

  /** A creation call that returned the user `_create` built. */
  predicate Created(h: Host, r: Result<User, Error>, email: string, password: string, username: string, kw: map<string, Value>)
    reads if r.Ok? then {r.value} else {}
  {
    r.Ok? && Built(h, r.value, email, password, username, kw)
  }

  /** `_create`: build the user, hash the password, save. */
  method Create(h: Host, email: string, password: string, username: string, kw: map<string, Value>)
    returns (user: User)
    requires KeywordsOnly(kw)
    ensures fresh(user)
    ensures Built(h, user, email, password, username, kw)
  {
    user := new User(email, username, kw);
    user.SetPassword(h, password);
    user.Save();
  }

  /** `create_user`: refuses a missing username, then a missing email; the flags default to False. */
  method CreateUser(h: Host, email: Option<string>, password: string, username: Option<string>, kwargs: map<string, Value>)
    returns (r: Result<User, Error>)
    requires KeywordsOnly(kwargs)
    ensures r.Ok? ==> fresh(r.value)
    ensures UserRefusal(email, username).Some? ==> r == Err(ValueError)
    ensures UserRefusal(email, username).None? ==>
      Created(h, r, h.normalizeEmail(email.value), password, username.value, Defaults(kwargs, false))
  {
    if !Truthy(username) {
      return Err(ValueError);
    }
    if !Truthy(email) {
      return Err(ValueError);
    }
    var kw := kwargs;
    kw := SetDefault(kw, IsSuperuser, VBool(false));
    kw := SetDefault(kw, IsStaff, VBool(false));
    kw := SetDefault(kw, IsActive, VBool(false));
    var user := Create(h, h.normalizeEmail(email.value), password, username.value, kw);
    return Ok(user);
  }

  /** `normalize_email` first replaces a false email by `''`. */
  function NormalizedEmail(h: Host, email: Option<string>): string
  {
    h.normalizeEmail(if email.Some? then email.value else "")
  }

  /** `create_superuser`: the flags default to True and both privilege flags must then be True. */
  method CreateSuperuser(h: Host, email: Option<string>, password: string, username: string, kwargs: map<string, Value>)
    returns (r: Result<User, Error>)
    requires KeywordsOnly(kwargs)
    ensures r.Ok? ==> fresh(r.value)
    ensures SuperuserRefusal(Defaults(kwargs, true)).Some? ==> r == Err(ValueError)
    ensures SuperuserRefusal(Defaults(kwargs, true)).None? ==>
      Created(h, r, NormalizedEmail(h, email), password, username, Defaults(kwargs, true))
  {
    var kw := kwargs;
    kw := SetDefault(kw, IsSuperuser, VBool(true));
    kw := SetDefault(kw, IsStaff, VBool(true));
    kw := SetDefault(kw, IsActive, VBool(true));
    if Get(kw, IsSuperuser) != Some(VBool(true)) {
      return Err(ValueError);
    }
    if Get(kw, IsStaff) != Some(VBool(true)) {
      return Err(ValueError);
    }
    var user := Create(h, NormalizedEmail(h, email), password, username, kw);
    return Ok(user);
  }
}
