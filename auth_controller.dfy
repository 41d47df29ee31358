/** The auth controller's decisions. Password hashing and token signing are
    library calls outside the model: they are parameters here, `hash` a
    function from password to stored hash (so that comparing a password with a
    hash is `hash(password) == storedHash`) and `sign` a function from the
    token payload (id and role) to a token. */
module AuthController {
  import opened Common
  import opened Strings
  import opened Models
  import opened Store

  /** The user fields a reply exposes. */
  datatype PublicUser = PublicUser(id: UserId, name: string, email: string, role: Role)

  datatype AuthBody = AuthBody(user: PublicUser, token: string)

  /** What `me` selects: the public fields and the creation time. */
  datatype Profile = Profile(id: UserId, name: string, email: string, role: Role, createdAt: int)

  function ProfileOf(u: User): Profile {
    Profile(u.id, u.name, u.email, u.role, u.createdAt)
  }

  function Public(u: User): PublicUser {
    PublicUser(u.id, u.name, u.email, u.role)
  }

  /** `!x?.trim()`: absent, or nothing but whitespace. */
  predicate Blank(s: Option<string>) {
    s.None? || Trim(s.value) == ""
  }

  /** Line 10: a non-blank name and email and a password of at least 6 characters. */
  predicate ValidRegistration(name: Option<string>, email: Option<string>, password: Option<string>) {
    !Blank(name) && !Blank(email) && password.Some? && password.value != "" && JsLength(password.value) >= 6
  }

  /** Line 30: a non-blank email and a non-empty password. */
  predicate ValidLogin(email: Option<string>, password: Option<string>) {
    !Blank(email) && password.Some? && password.value != ""
  }

  /** The stored account: the schema trims the name, lower-cases the email and
      gives the role its default. */
  function NewUser(id: UserId, name: string, email: string, password: string, hash: string -> string, now: int): (u: User)
    ensures u.role == UserRole && u.wishlist == [] && u.email == ToLower(email) && u.name == Trim(name)
    ensures u.passwordHash == hash(password)
  {
    User(id, Trim(name), ToLower(email), hash(password), UserRole, [], now)
  }

  /** The account `findOne({ email })` finds; the schema's lower-case setter
      applies to the query value too. */
  function AccountFor(users: seq<User>, email: string): int {
    EmailIndex(users, ToLower(email))
  }

  /** `register`: 400 for invalid input, 409 when the email is taken, 500 when
      the stored hash fails the schema's minimum length; otherwise the account
      is stored with status 201 and the reply carries its public fields and a
      token. `id` and `now` are the fresh ObjectId and the timestamp. */
  method Register(db: Database, name: Option<string>, email: Option<string>, password: Option<string>,
                  hash: string -> string, sign: (UserId, Role) -> string, id: UserId, now: int)
    returns (r: Reply<AuthBody>)
    modifies db
    ensures db.arts == old(db.arts) && db.carts == old(db.carts)
    ensures !ValidRegistration(name, email, password) ==> r == Err(400, "Invalid input") && db.users == old(db.users)
    ensures ValidRegistration(name, email, password) ==>
      if AccountFor(old(db.users), email.value) >= 0 then
        r == Err(409, "Email already registered") && db.users == old(db.users)
      else if JsLength(hash(password.value)) < 6 then
        r == Err(500, "Server error") && db.users == old(db.users)
      else
        var u := NewUser(id, name.value, email.value, password.value, hash, now);
        db.users == old(db.users) + [u] && r == Ok(201, AuthBody(Public(u), sign(id, UserRole)))
  {
    if !ValidRegistration(name, email, password) {
      return Err(400, "Invalid input");
    }
    if AccountFor(db.users, email.value) >= 0 {
      return Err(409, "Email already registered");
    }
    var hashed := hash(password.value);
    if JsLength(hashed) < 6 {
      return Err(500, "Server error");
    }
    var user := NewUser(id, name.value, email.value, password.value, hash, now);
    db.users := db.users + [user];
    r := Ok(201, AuthBody(Public(user), sign(user.id, user.role)));
  }

  /** `login`: 400 for invalid input; an unknown email and a wrong password give
      the same 401; otherwise the account's public fields and a token. */
  function Login(users: seq<User>, email: Option<string>, password: Option<string>,
                 hash: string -> string, sign: (UserId, Role) -> string): (r: Reply<AuthBody>)
    ensures !ValidLogin(email, password) <==> r == Err(400, "Invalid input")
    ensures r.Err? ==> r.status == 400 || r == Err(401, "Invalid credentials")
    ensures r.Ok? <==> ValidLogin(email, password) && AccountFor(users, email.value) >= 0
                       && hash(password.value) == users[AccountFor(users, email.value)].passwordHash
    ensures r.Ok? ==> r.status == 200 && r.body.user == Public(users[AccountFor(users, email.value)])
                      && r.body.token == sign(r.body.user.id, r.body.user.role)
  {
    if !ValidLogin(email, password) then Err(400, "Invalid input")
    else
      var k := AccountFor(users, email.value);
      if k < 0 then Err(401, "Invalid credentials")
      else if hash(password.value) != users[k].passwordHash then Err(401, "Invalid credentials")
      else Ok(200, AuthBody(Public(users[k]), sign(users[k].id, users[k].role)))
  }

  /** The length rule counts UTF-16 code units: three emoji pass it as six,
      and three BMP characters do not. */
  lemma PasswordLengthInCodeUnits(name: string, email: string)
    requires !Blank(Some(name)) && !Blank(Some(email))
    ensures ValidRegistration(Some(name), Some(email), Some("\U{1F600}\U{1F600}\U{1F600}"))
    ensures !ValidRegistration(Some(name), Some(email), Some("abc"))
  {
    EmojiLength();
    assert "abc"[1..][1..][1..] == [];
  }

  /** A successful registration can log in at once with the same email and
      password, and the login reply matches the registration reply. */
  lemma RegisterThenLogin(users: seq<User>, name: string, email: string, password: string,
                          hash: string -> string, sign: (UserId, Role) -> string, id: UserId, now: int)
    requires ValidRegistration(Some(name), Some(email), Some(password))
    requires AccountFor(users, email) < 0
    ensures Login(users + [NewUser(id, name, email, password, hash, now)], Some(email), Some(password), hash, sign)
         == Ok(200, AuthBody(Public(NewUser(id, name, email, password, hash, now)), sign(id, UserRole)))
  {
    var u := NewUser(id, name, email, password, hash, now);
    var all := users + [u];
    assert all[|users|] == u;
    assert forall k :: 0 <= k < |users| ==> all[k] == users[k];
    assert AccountFor(all, email) == |users|;
  }

  /** `me`: 404 when the id is not in the store, otherwise the selected fields. */
  function Me(users: seq<User>, id: UserId): (r: Reply<Profile>)
    ensures r.Err? <==> forall k :: 0 <= k < |users| ==> users[k].id != id
    ensures r.Err? ==> r == Err(404, "Not found")
    ensures r.Ok? ==> r.status == 200 && r.body.id == id
    ensures r.Ok? ==> exists k :: 0 <= k < |users| && users[k].id == id && r.body == ProfileOf(users[k])
  {
    var k := UserIndex(users, id);
    if k < 0 then Err(404, "Not found")
    else Ok(200, ProfileOf(users[k]))
  }
}
