/**
 * The user registry of js/auth.js: a list of users kept in the browser's
 * key-value storage, seeded with a super-administrator, plus the login
 * session.  The storage entries become the two fields of `Registry`; the
 * timestamp a new user gets as its id is passed in.
 */
module Auth {
  import opened Wrappers

  datatype User = User(id: int, name: string, email: string, pass: string, role: string)

  /** The e-mail of the super-administrator, whom nobody may delete. */
  const AdminEmail: string := "admin@admin.com"

  /** The user the registry is seeded with. */
  const DefaultAdmin: User := User(1, "Administrador", AdminEmail, "admin", "admin")

  datatype AuthError = MissingFields | EmailTaken | ProtectedAdmin | InvalidCredentials

  /** The message shown for each failure. */
  function Message(e: AuthError): (m: string)
    ensures m != ""
  {
    match e
    case MissingFields => "Preencha todos os campos."
    case EmailTaken => "E-mail já cadastrado."
    case ProtectedAdmin => "Não é possível remover o super-admin!"
    case InvalidCredentials => "Credenciais inválidas."
  }

  /** Each failure has its own message. */
  lemma MessagesDistinct(e1: AuthError, e2: AuthError)
    ensures Message(e1) == Message(e2) <==> e1 == e2
  {
  }

  /** What `saveUser` and `deleteUser` report. */
  datatype Status = Success | Failure(error: AuthError)

  /** `users.find(p)`: the first user satisfying `p`, if any. */
  function Find(users: seq<User>, p: User -> bool): (r: Option<User>)
    ensures r.None? <==> forall i :: 0 <= i < |users| ==> !p(users[i])
    ensures r.Some? ==> exists i :: 0 <= i < |users| && users[i] == r.value && p(users[i])
                                    && forall j :: 0 <= j < i ==> !p(users[j])
  {
    if users == [] then None
    else if p(users[0]) then Some(users[0])
    else
      var r := Find(users[1..], p);
      assert forall i :: 1 <= i < |users| ==> users[i] == users[1..][i - 1];
      r
  }

  /** `users.filter(u => u.id !== id)`. */
  function WithoutId(users: seq<User>, id: int): (r: seq<User>)
    ensures forall u :: u in r <==> u in users && u.id != id
    ensures |r| <= |users|
  {
    if users == [] then []
    else if users[0].id == id then WithoutId(users[1..], id)
    else [users[0]] + WithoutId(users[1..], id)
  }

  /** The filter keeps every user when none has the id. */
  lemma {:induction false} WithoutAbsentId(users: seq<User>, id: int)
    requires forall u :: u in users ==> u.id != id
    ensures WithoutId(users, id) == users
  {
    if users != [] {
      WithoutAbsentId(users[1..], id);
      assert users == [users[0]] + users[1..];
    }
  }

  /** A single user is kept exactly when it does not have the id. */
  lemma WithoutIdSingleton(u: User, id: int)
    ensures WithoutId([u], id) == if u.id == id then [] else [u]
  {
  }

  /**
   * The filter works user by user: filtering a concatenation concatenates the
   * filtered parts, so the remaining users keep their order and multiplicity.
   */
  lemma {:induction false} WithoutIdAppend(a: seq<User>, b: seq<User>, id: int)
    ensures WithoutId(a + b, id) == WithoutId(a, id) + WithoutId(b, id)
  {
    if a != [] {
      WithoutIdAppend(a[1..], b, id);
      assert (a + b)[1..] == a[1..] + b;
    } else {
      assert a + b == b;
    }
  }

  /** The filter keeps the first user when it does not have the id. */
  lemma WithoutIdKeepsHead(users: seq<User>, id: int)
    requires users != [] && users[0].id != id
    ensures WithoutId(users, id) != [] && WithoutId(users, id)[0] == users[0]
  {
  }

  /** No two users share an e-mail. */
  predicate EmailsUnique(users: seq<User>)
  {
    forall i, j :: 0 <= i < j < |users| ==> users[i].email != users[j].email
  }

  /** The filter keeps the users in order, so distinct e-mails stay distinct. */
  lemma {:induction false} WithoutIdKeepsEmailsUnique(users: seq<User>, id: int)
    requires EmailsUnique(users)
    ensures EmailsUnique(WithoutId(users, id))
  {
    if users != [] {
      WithoutIdKeepsEmailsUnique(users[1..], id);
      var rest := WithoutId(users[1..], id);
      if users[0].id != id {
        forall u | u in rest ensures u.email != users[0].email {
          var k :| 1 <= k < |users| && users[k] == u;
        }
      }
    }
  }

  /** `getUsers()` on what storage holds: the stored list, or the seed `[DefaultAdmin]` when nothing is stored. */
  function Seeded(stored: Option<seq<User>>): (r: seq<User>)
    ensures stored.None? ==> r == [DefaultAdmin]
    ensures stored.Some? ==> r == stored.value
  {
    stored.GetOr([DefaultAdmin])
  }

  /**
   * `saveUser(name, email, pass)` on the list `users`: an empty field or a
   * registered e-mail is refused; otherwise the new user, with id `now` and
   * role "user", is appended.
   */
  function Saved(users: seq<User>, name: string, email: string, pass: string, now: int): (r: Option<seq<User>>)
    ensures r.Some? <==> name != "" && email != "" && pass != "" && forall u :: u in users ==> u.email != email
    ensures r.Some? ==> r.value == users + [User(now, name, email, pass, "user")]
  {
    if name == "" || email == "" || pass == "" then None
    else if Find(users, (u: User) => u.email == email).Some? then None
    else Some(users + [User(now, name, email, pass, "user")])
  }

  /** Why `Saved` refused: the empty-field check comes before the e-mail check. */
  function SaveError(users: seq<User>, name: string, email: string, pass: string): (e: AuthError)
    requires name == "" || email == "" || pass == "" || exists u :: u in users && u.email == email
    ensures e == MissingFields <==> name == "" || email == "" || pass == ""
    ensures e != MissingFields ==> e == EmailTaken && exists u :: u in users && u.email == email
  {
    if name == "" || email == "" || pass == "" then MissingFields else EmailTaken
  }

  /**
   * `deleteUser(id)` on the list `users`: refused when the first user with the
   * id is the super-administrator; otherwise every user with the id is removed.
   */
  function Deleted(users: seq<User>, id: int): (r: Option<seq<User>>)
    ensures r.None? <==> exists i :: 0 <= i < |users| && users[i].id == id && users[i].email == AdminEmail
                                     && forall j :: 0 <= j < i ==> users[j].id != id
    ensures r.Some? ==> r.value == WithoutId(users, id)
  {
    var target := Find(users, (u: User) => u.id == id);
    if target.Some? && target.value.email == AdminEmail then None
    else Some(WithoutId(users, id))
  }

  /** `users.find(u => u.email === email && u.pass === password)`. */
  function Credentials(users: seq<User>, email: string, pass: string): (r: Option<User>)
    ensures r.Some? <==> exists u :: u in users && u.email == email && u.pass == pass
    ensures r.Some? ==> exists i :: 0 <= i < |users| && users[i] == r.value
                                    && r.value.email == email && r.value.pass == pass
                                    && forall j :: 0 <= j < i ==> !(users[j].email == email && users[j].pass == pass)
  {
    Find(users, (u: User) => u.email == email && u.pass == pass)
  }

  /** With unique e-mails, the user a login finds is the only one that matches. */
  lemma CredentialsUnique(users: seq<User>, email: string, pass: string, u: User)
    requires EmailsUnique(users)
    requires u in users && u.email == email && u.pass == pass
    ensures Credentials(users, email, pass) == Some(u)
  {
    var r := Credentials(users, email, pass);
    var i :| 0 <= i < |users| && users[i] == r.value && r.value.email == email;
    var k :| 0 <= k < |users| && users[k] == u;
    assert users[i].email == users[k].email;
  }

  /** The registry's storage: the user list (absent until first read) and the login session. */
  class Registry {
    var stored: Option<seq<User>>
    var session: Option<User>

    /**
     * Whatever is stored starts with the super-administrator and has unique
     * e-mails.
     */
    predicate Valid()
      reads this
    {
      stored.Some? ==> |stored.value| > 0 && stored.value[0] == DefaultAdmin && EmailsUnique(stored.value)
    }

    /** Empty storage: no user list, no session. */
    constructor ()
      ensures Valid() && stored == None && session == None
    {
      stored := None;
      session := None;
    }

    /** `getUsers()`: empty storage is seeded with `[DefaultAdmin]`; the list is returned. */
    method GetUsers() returns (users: seq<User>)
      requires Valid()
      modifies this`stored
      ensures Valid()
      ensures users == Seeded(old(stored)) && stored == Some(users)
      ensures users != [] && users[0] == DefaultAdmin
    {
      if stored.None? {
        var initial := [DefaultAdmin];
        stored := Some(initial);
        return initial;
      }
      users := stored.value;
    }

    /** `saveUser(name, email, pass)` with `now` standing for `Date.now()`. */
    method SaveUser(name: string, email: string, pass: string, now: int) returns (status: Status)
      requires Valid()
      modifies this`stored
      ensures Valid()
      ensures var users := Seeded(old(stored));
              match Saved(users, name, email, pass, now)
              case None => status == Failure(SaveError(users, name, email, pass)) && stored == Some(users)
              case Some(after) => status == Success && stored == Some(after)
    {
      var users := GetUsers();
      if name == "" || email == "" || pass == "" {
        return Failure(MissingFields);
      }
      if Find(users, (u: User) => u.email == email).Some? {
        return Failure(EmailTaken);
      }
      var newUser := User(now, name, email, pass, "user");
      users := users + [newUser];
      stored := Some(users);
      status := Success;
    }

    /** `deleteUser(id)`. */
    method DeleteUser(id: int) returns (status: Status)
      requires Valid()
      modifies this`stored
      ensures Valid()
      ensures var users := Seeded(old(stored));
              match Deleted(users, id)
              case None => status == Failure(ProtectedAdmin) && stored == Some(users)
              case Some(after) => status == Success && stored == Some(after)
      ensures stored.value[0] == DefaultAdmin
    {
      var users := GetUsers();
      var userToDelete := Find(users, (u: User) => u.id == id);
      if userToDelete.Some? && userToDelete.value.email == AdminEmail {
        return Failure(ProtectedAdmin);
      }
      WithoutIdKeepsEmailsUnique(users, id);
      WithoutIdKeepsHead(users, id);
      users := WithoutId(users, id);
      stored := Some(users);
      status := Success;
    }

    /** `login(email, password)`: the first matching user becomes the session; a failed login leaves it alone. */
    method Login(email: string, pass: string) returns (user: Option<User>)
      requires Valid()
      modifies this`stored, this`session
      ensures Valid()
      ensures stored == Some(Seeded(old(stored)))
      ensures user == Credentials(Seeded(old(stored)), email, pass)
      ensures session == if user.Some? then user else old(session)
    {
      var users := GetUsers();
      var foundUser := Find(users, (u: User) => u.email == email && u.pass == pass);
      if foundUser.Some? {
        session := foundUser;
      }
      return foundUser;
    }

    /** `logout()`: the session is gone. */
    method Logout()
      modifies this`session
      ensures session == None
    {
      session := None;
    }

    /** `getSession()`: the logged-in user, or null. */
    method GetSession() returns (user: Option<User>)
      ensures user == session
    {
      user := session;
    }
  }

  /** Signing up twice with the same e-mail: the second attempt is refused. */
  method SignUpScenario()
  {
    var reg := new Registry();
    assert AdminEmail != "ana@loja.com";
    var s := reg.SaveUser("Ana", "ana@loja.com", "segredo", 1700000000000);
    var ana := User(1700000000000, "Ana", "ana@loja.com", "segredo", "user");
    assert [DefaultAdmin] + [ana] == [DefaultAdmin, ana];
    assert s == Success && reg.stored == Some([DefaultAdmin, ana]);
    assert reg.stored.value[1].email == "ana@loja.com";
    s := reg.SaveUser("Bia", "ana@loja.com", "x", 1700000000001);
    assert s == Failure(EmailTaken);
  }

  /** The administrator logs in, cannot delete itself, and logs out. */
  method AdminSessionScenario()
  {
    var reg := new Registry();
    var u := reg.Login(AdminEmail, "admin");
    assert [DefaultAdmin][0] == DefaultAdmin;
    assert u == Some(DefaultAdmin) && reg.session == u;
    var s := reg.DeleteUser(1);
    assert s == Failure(ProtectedAdmin);
    reg.Logout();
    u := reg.GetSession();
    assert u == None;
  }
}
