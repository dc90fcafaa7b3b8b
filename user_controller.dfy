/**
 * `Signup` and `googleSignup` of backend/controller/user.controller.js over
 * an in-memory User collection. `User.findOne({email})` is a lookup in a map
 * keyed by email, `_id`s come from a counter, bcrypt's digest is kept as an
 * opaque value that remembers only which secret it was made from, and the
 * Google token check is reduced to the profile it yields, if any.
 */
module UserController {
  import opened Js

  const OK: nat := 200
  const CREATED: nat := 201
  const BAD_REQUEST: nat := 400
  const SERVER_ERROR: nat := 500

  /** The `password` a user document holds: a bcrypt digest of the secret, or the empty string of a Google account. */
  datatype StoredPassword = BcryptDigest(secret: string) | NoPassword

  datatype User = User(id: nat, username: string, email: string, password: StoredPassword)

  /** The `user` object of both responses: no password in it. */
  datatype UserView = UserView(id: nat, username: string, email: string)

  /** The `email` and `name` of a verified Google ID token. */
  datatype GoogleProfile = GoogleProfile(email: string, name: string)

  /** The JSON reply of a handler: status, `message`, and the `user` object when there is one. */
  datatype Reply = Reply(status: nat, message: string, user: Option<UserView>)

  function View(u: User): UserView {
    UserView(u.id, u.username, u.email)
  }

  /**
   * The collection as the handlers keep it: each user filed under its own
   * email, ids below the counter and no id used twice.
   */
  predicate WellFormed(users: map<string, User>, nextId: nat) {
    && (forall e :: e in users ==> users[e].email == e && users[e].id < nextId)
    && (forall e1, e2 :: e1 in users && e2 in users && users[e1].id == users[e2].id ==> e1 == e2)
  }

  /** Saving a new document under an unused email with the counter's id. */
  function Insert(users: map<string, User>, nextId: nat, username: string, email: string, password: StoredPassword): map<string, User>
    requires email !in users
  {
    users[email := User(nextId, username, email, password)]
  }

  /** Saving a new user under an unused email with the counter's id keeps the collection well formed once the counter moves on. */
  lemma {:induction false} InsertWellFormed(users: map<string, User>, nextId: nat, username: string, email: string, password: StoredPassword)
    requires WellFormed(users, nextId) && email !in users
    ensures WellFormed(Insert(users, nextId, username, email, password), nextId + 1)
    ensures |Insert(users, nextId, username, email, password)| == |users| + 1
  {
    var r := Insert(users, nextId, username, email, password);
    forall e1, e2 | e1 in r && e2 in r && r[e1].id == r[e2].id
      ensures e1 == e2
    {
      if e1 != email && e2 != email {
        assert users[e1].id == users[e2].id;
      }
    }
  }

  /**
   * The refusals of `Signup`, in the order it checks them: a missing field,
   * then an email already on file.
   */
  function SignupRefusal(users: map<string, User>, username: Option<string>, email: Option<string>,
                         password: Option<string>): (r: Option<string>)
    ensures r == None <==> Truthy(username) && Truthy(email) && Truthy(password) && email.value !in users
    ensures r == Some("All fields are required") <==> !(Truthy(username) && Truthy(email) && Truthy(password))
  {
    if !(Truthy(username) && Truthy(email) && Truthy(password)) then Some("All fields are required")
    else if email.value in users then Some("User already exists")
    else None
  }

  /**
   * The account `googleSignup` answers with: the one on file for the email,
   * or a new one with the profile's name and no password.
   */
  function FindOrCreate(users: map<string, User>, nextId: nat, p: GoogleProfile): (r: (map<string, User>, nat))
    ensures p.email in r.0
  {
    if p.email in users then (users, nextId)
    else (Insert(users, nextId, p.name, p.email, NoPassword), nextId + 1)
  }

  /**
   * Signing in with the same Google account again finds the account the
   * first call made or found: no second user, no new id.
   */
  lemma FindOrCreateIdempotent(users: map<string, User>, nextId: nat, p: GoogleProfile)
    ensures var (u1, n1) := FindOrCreate(users, nextId, p);
            FindOrCreate(u1, n1, p) == (u1, n1)
  {
  }

  /**
   * Google sign-in leaves every other account alone, keeps a known account
   * as it is, and adds at most the one account, with an empty password.
   */
  lemma FindOrCreateEffect(users: map<string, User>, nextId: nat, p: GoogleProfile)
    requires WellFormed(users, nextId)
    ensures var (u1, n1) := FindOrCreate(users, nextId, p);
            && WellFormed(u1, n1)
            && (forall e :: e in users ==> e in u1 && u1[e] == users[e])
            && (p.email in users ==> u1 == users && n1 == nextId)
            && (p.email !in users ==> |u1| == |users| + 1 && u1[p.email] == User(nextId, p.name, p.email, NoPassword))
  {
    if p.email !in users {
      InsertWellFormed(users, nextId, p.name, p.email, NoPassword);
    }
  }

  /** The User collection and its id counter. */
  class Registry {
    var users: map<string, User>
    var nextId: nat

    ghost predicate Valid()
      reads this
    {
      WellFormed(users, nextId)
    }

    constructor ()
      ensures Valid() && users == map[]
    {
      users := map[];
      nextId := 0;
    }

    /**
     * `Signup`: 400 when a field is missing or the email is taken, 500 when
     * the save fails, otherwise 201 and exactly one new user holding the
     * digest of the password. `saveFails` stands for a failing
     * `createdUser.save()`.
     */
    method Signup(username: Option<string>, email: Option<string>, password: Option<string>, saveFails: bool)
      returns (reply: Reply)
      requires Valid()
      modifies this
      ensures Valid()
      ensures SignupRefusal(old(users), username, email, password).Some? ==>
                && reply == Reply(BAD_REQUEST, SignupRefusal(old(users), username, email, password).value, None)
                && users == old(users) && nextId == old(nextId)
      ensures SignupRefusal(old(users), username, email, password).None? && saveFails ==>
                reply == Reply(SERVER_ERROR, "Something went wrong", None) && users == old(users) && nextId == old(nextId)
      ensures SignupRefusal(old(users), username, email, password).None? && !saveFails ==>
                && users == old(users)[email.value := User(old(nextId), username.value, email.value, BcryptDigest(password.value))]
                && |users| == |old(users)| + 1
                && nextId == old(nextId) + 1
                && reply == Reply(CREATED, "User created successfully",
                                  Some(UserView(old(nextId), username.value, email.value)))
    {
      var refusal := SignupRefusal(users, username, email, password);
      if refusal.Some? {
        return Reply(BAD_REQUEST, refusal.value, None);
      }
      if saveFails {
        return Reply(SERVER_ERROR, "Something went wrong", None);
      }
      InsertWellFormed(users, nextId, username.value, email.value, BcryptDigest(password.value));
      var created := User(nextId, username.value, email.value, BcryptDigest(password.value));
      users := users[email.value := created];
      nextId := nextId + 1;
      reply := Reply(CREATED, "User created successfully", Some(View(created)));
    }

    /**
     * `googleSignup`: 500 and nothing saved when the token does not verify
     * (`profile == None`) or the save fails; otherwise 200 with the account
     * found or made by `FindOrCreate`.
     */
    method GoogleSignup(profile: Option<GoogleProfile>, saveFails: bool) returns (reply: Reply)
      requires Valid()
      modifies this
      ensures Valid()
      ensures profile.None? ==>
                reply == Reply(SERVER_ERROR, "Google signup failed", None) && users == old(users) && nextId == old(nextId)
      ensures profile.Some? && profile.value.email !in old(users) && saveFails ==>
                reply == Reply(SERVER_ERROR, "Google signup failed", None) && users == old(users) && nextId == old(nextId)
      ensures profile.Some? && (profile.value.email in old(users) || !saveFails) ==>
                && (users, nextId) == FindOrCreate(old(users), old(nextId), profile.value)
                && reply == Reply(OK, "Google signup successful", Some(View(users[profile.value.email])))
    {
      if profile.None? {
        return Reply(SERVER_ERROR, "Google signup failed", None);
      }
      var p := profile.value;
      if p.email !in users && saveFails {
        return Reply(SERVER_ERROR, "Google signup failed", None);
      }
      FindOrCreateEffect(users, nextId, p);
      users, nextId := FindOrCreate(users, nextId, p).0, FindOrCreate(users, nextId, p).1;
      reply := Reply(OK, "Google signup successful", Some(View(users[p.email])));
    }
  }

  /** Two Google sign-ins with one account leave one user for that email, with the id the first call gave it. */
  method GoogleSignupTwice(r: Registry, p: GoogleProfile) returns (first: Reply, second: Reply)
    requires r.Valid()
    modifies r
    ensures r.Valid()
    ensures second == first && first.status == OK
    ensures (r.users, r.nextId) == FindOrCreate(old(r.users), old(r.nextId), p)
  {
    first := r.GoogleSignup(Some(p), false);
    FindOrCreateIdempotent(old(r.users), old(r.nextId), p);
    second := r.GoogleSignup(Some(p), false);
  }
}
