/** Who a login is: two ways to sign in and the provisioning calls share the
    tables `users` and `oidc_identities`. A sign-in is one transaction; a failed
    one leaves the tables as they were. */
module Identity {
  import opened Text

  type Id = nat

  datatype User = User(email: string, externalId: Option<string>, active: bool)

  /** The key is the pair of issuer and subject. */
  type BindingKey = (string, string)

  datatype Binding = Binding(user: Id, email: string)

  /** `used` is history: every user id ever given out. */
  datatype Accounts = Accounts(users: map<Id, User>, bindings: map<BindingKey, Binding>, used: set<Id>)

  datatype AuthError = Unauthorized | Conflict | Database

  /** Who may come in: Workspace domains, and whether only provisioned people may. */
  datatype Admission = Admission(hostedDomains: seq<string>, directoryOnly: bool)

  /** A verified id token. */
  datatype Verified = Verified(issuer: string, subject: string, email: string, hostedDomain: Option<string>)

  /** A verified OpsAPI session; its email has been lower-cased. */
  datatype Person = Person(uuid: string, email: string)

  datatype NewUser = NewUser(email: string, externalId: Option<string>, active: bool)

  // ---- Statements, with the constraints of the tables ----

  predicate EmailTaken(d: Accounts, email: string)
  {
    exists x | x in d.users :: d.users[x].email == email
  }

  predicate ExternalTaken(d: Accounts, external: Option<string>)
  {
    external.Some? && exists x | x in d.users :: d.users[x].externalId == external
  }

  /** `email` and `external_id` are unique. */
  function InsertUser(d: Accounts, id: Id, u: User): (r: Result<Accounts, AuthError>)
  {
    if EmailTaken(d, u.email) || ExternalTaken(d, u.externalId) then Err(Database)
    else Ok(d.(users := d.users[id := u], used := d.used + {id}))
  }

  predicate HasBinding(d: Accounts, issuer: string, user: Id)
  {
    exists k | k in d.bindings :: k.0 == issuer && d.bindings[k].user == user
  }

  /** The pair (issuer, subject) is the primary key; (issuer, user) is unique. */
  function InsertBinding(d: Accounts, k: BindingKey, b: Binding): (r: Result<Accounts, AuthError>)
  {
    if k in d.bindings || HasBinding(d, k.0, b.user) then Err(Database) else Ok(d.(bindings := d.bindings[k := b]))
  }

  function SetEmail(d: Accounts, id: Id, email: string): (r: Result<Accounts, AuthError>)
    requires id in d.users
  {
    if exists x | x in d.users :: x != id && d.users[x].email == email then Err(Database)
    else Ok(d.(users := d.users[id := d.users[id].(email := email)]))
  }

  ghost function ByEmail(d: Accounts, email: string): (id: Option<Id>)
    ensures id.Some? <==> EmailTaken(d, email)
    ensures id.Some? ==> id.value in d.users && d.users[id.value].email == email
  {
    if EmailTaken(d, email) then
      var x :| x in d.users && d.users[x].email == email;
      Some(x)
    else None
  }

  ghost function ByExternal(d: Accounts, external: string): (id: Option<Id>)
    ensures id.Some? <==> ExternalTaken(d, Some(external))
    ensures id.Some? ==> id.value in d.users && d.users[id.value].externalId == Some(external)
  {
    if ExternalTaken(d, Some(external)) then
      var x :| x in d.users && d.users[x].externalId == Some(external);
      Some(x)
    else None
  }

  predicate LowerEmailTaken(d: Accounts, email: string)
  {
    exists x | x in d.users :: Lower(d.users[x].email) == email
  }

  // ---- What always holds ----

  /** The tables are consistent, and each binding of the issuer `ops` is for the
      user with its subject as external id. */
  ghost predicate Good(d: Accounts, ops: string)
  {
    && d.users.Keys <= d.used
    && (forall x, y | x in d.users && y in d.users && x != y :: d.users[x].email != d.users[y].email)
    && (forall x, y | x in d.users && y in d.users && x != y && d.users[x].externalId.Some? ::
          d.users[x].externalId != d.users[y].externalId)
    && (forall k | k in d.bindings :: d.bindings[k].user in d.users)
    && (forall k, l | k in d.bindings && l in d.bindings && k != l && k.0 == l.0 :: d.bindings[k].user != d.bindings[l].user)
    && (forall k | k in d.bindings && k.0 == ops :: d.users[d.bindings[k].user].externalId == Some(k.1))
  }

  // ---- OIDC ----

  predicate Admitted(a: Admission, who: Verified)
  {
    a.hostedDomains == []
    || (who.hostedDomain.Some? && exists h | h in a.hostedDomains :: Lower(h) == Lower(who.hostedDomain.value))
  }

  /** The user of a verified token, before the check that the user is active. */
  ghost function OidcResolved(d: Accounts, a: Admission, who: Verified, id: Id): (r: Result<(Accounts, Id), AuthError>)
    requires forall k | k in d.bindings :: d.bindings[k].user in d.users
    ensures r.Ok? ==> r.value.1 in r.value.0.users
  {
    var k := (who.issuer, who.subject);
    if k in d.bindings then
      var user := d.bindings[k].user;
      var d1 := d.(bindings := d.bindings[k := Binding(user, who.email)]);
      match SetEmail(d1, user, who.email)
      case Err(e) => Err(e)
      case Ok(d2) => Ok((d2, user))
    else
      match ByEmail(d, who.email)
      case Some(user) =>
        if HasBinding(d, who.issuer, user) then Err(Unauthorized)
        else
          (match InsertBinding(d, k, Binding(user, who.email))
           case Err(e) => Err(e)
           case Ok(d1) => Ok((d1, user)))
      case None =>
        if a.directoryOnly then Err(Unauthorized)
        else
          match InsertUser(d, id, User(who.email, None, true))
          case Err(e) => Err(e)
          case Ok(d1) =>
            match InsertBinding(d1, k, Binding(id, who.email))
            case Err(e) => Err(e)
            case Ok(d2) => Ok((d2, id))
  }

  /** Commits only for an active user. */
  function Committed(d: Accounts, r: Result<(Accounts, Id), AuthError>): (out: (Accounts, Result<Id, AuthError>))
    requires r.Ok? ==> r.value.1 in r.value.0.users
  {
    match r
    case Err(e) => (d, Err(e))
    case Ok((d', user)) => if d'.users[user].active then (d', Ok(user)) else (d, Err(Unauthorized))
  }

  ghost function OidcSignedIn(d: Accounts, a: Admission, who: Verified, id: Id): (out: (Accounts, Result<Id, AuthError>))
    requires forall k | k in d.bindings :: d.bindings[k].user in d.users
  {
    if !Admitted(a, who) then (d, Err(Unauthorized)) else Committed(d, OidcResolved(d, a, who, id))
  }

  // ---- OpsAPI ----

  ghost function OpsUser(d: Accounts, a: Admission, who: Person, id: Id): (r: Result<(Accounts, Id), AuthError>)
    ensures r.Ok? ==> r.value.1 in r.value.0.users
    ensures r.Ok? ==> r.value.0.bindings == d.bindings
  {
    match ByExternal(d, who.uuid)
    case Some(user) => Ok((d, user))
    case None =>
      if LowerEmailTaken(d, who.email) then Err(Unauthorized)
      else if a.directoryOnly then Err(Unauthorized)
      else
        match InsertUser(d, id, User(who.email, Some(who.uuid), true))
        case Err(e) => Err(e)
        case Ok(d1) => Ok((d1, id))
  }

  ghost function OpsResolved(d: Accounts, a: Admission, ops: string, who: Person, id: Id): (r: Result<(Accounts, Id), AuthError>)
    requires forall k | k in d.bindings :: d.bindings[k].user in d.users
    ensures r.Ok? ==> r.value.1 in r.value.0.users
  {
    var k := (ops, who.uuid);
    if k in d.bindings then
      var user := d.bindings[k].user;
      Ok((d.(bindings := d.bindings[k := Binding(user, who.email)]), user))
    else
      match OpsUser(d, a, who, id)
      case Err(e) => Err(e)
      case Ok((d1, user)) =>
        match InsertBinding(d1, k, Binding(user, who.email))
        case Err(e) => Err(e)
        case Ok(d2) => Ok((d2, user))
  }

  ghost function OpsSignedIn(d: Accounts, a: Admission, ops: string, who: Person, id: Id): (out: (Accounts, Result<Id, AuthError>))
    requires forall k | k in d.bindings :: d.bindings[k].user in d.users
  {
    Committed(d, OpsResolved(d, a, ops, who, id))
  }

  // ---- Provisioning ----

  /** Inserts a user, or gives the external id to the one with that email if it
      has none; `active` is only for a new row. */
  ghost function Created(d: Accounts, req: NewUser, id: Id): (out: (Accounts, Result<Id, AuthError>))
  {
    match ByEmail(d, req.email)
    case Some(x) =>
      if req.externalId.None? || !(d.users[x].externalId.None? || d.users[x].externalId == req.externalId) then (d, Err(Conflict))
      else if exists y | y in d.users :: y != x && d.users[y].externalId == req.externalId then (d, Err(Conflict))
      else (d.(users := d.users[x := d.users[x].(externalId := req.externalId)]), Ok(x))
    case None =>
      match InsertUser(d, id, User(req.email, req.externalId, req.active))
      case Err(_) => (d, Err(Conflict))
      case Ok(d') => (d', Ok(id))
  }

  function Updated(d: Accounts, id: Id, active: Option<bool>): (d': Accounts)
  {
    if id in d.users && active.Some? then d.(users := d.users[id := d.users[id].(active := active.value)]) else d
  }

  /** Deleting a user deletes its bindings. */
  function Deleted(d: Accounts, id: Id): (d': Accounts)
  {
    d.(users := d.users - {id}, bindings := map k | k in d.bindings && d.bindings[k].user != id :: d.bindings[k])
  }

  /** The login for development, by email alone. */
  ghost function DevSignedIn(d: Accounts, email: string, id: Id): (out: (Accounts, Result<Id, AuthError>))
  {
    var e := Lower(Trim(email));
    match ByEmail(d, e)
    case Some(x) => (d, if d.users[x].active then Ok(x) else Err(Unauthorized))
    case None =>
      match InsertUser(d, id, User(e, None, true))
      case Err(err) => (d, Err(err))
      case Ok(d') => (d', Ok(id))
  }

  /** A configured administrator who does not exist yet. */
  ghost function Bootstrapped(d: Accounts, email: string, id: Id): (d': Accounts)
  {
    match InsertUser(d, id, User(email, None, true)) case Err(_) => d case Ok(d') => d'
  }

  // ---- The tables as the services change them ----

  class Service {
    var users: map<Id, User>
    var bindings: map<BindingKey, Binding>
    ghost var used: set<Id>

    ghost function Value(): (d: Accounts)
      reads this
    {
      Accounts(users, bindings, used)
    }

    constructor ()
      ensures Value() == Accounts(map[], map[], {})
    {
      users, bindings, used := map[], map[], {};
    }

    method InsertUserRow(id: Id, u: User) returns (ok: bool)
      modifies this
      ensures ok == InsertUser(old(Value()), id, u).Ok?
      ensures Value() == if ok then InsertUser(old(Value()), id, u).value else old(Value())
    {
      ok := !(exists x | x in users :: users[x].email == u.email)
            && !(u.externalId.Some? && exists x | x in users :: users[x].externalId == u.externalId);
      if ok {
        users := users[id := u];
        used := used + {id};
      }
    }

    method InsertBindingRow(k: BindingKey, b: Binding) returns (ok: bool)
      modifies this
      ensures ok == InsertBinding(old(Value()), k, b).Ok?
      ensures Value() == if ok then InsertBinding(old(Value()), k, b).value else old(Value())
    {
      ok := k !in bindings && !(exists l | l in bindings :: l.0 == k.0 && bindings[l].user == b.user);
      if ok {
        bindings := bindings[k := b];
      }
    }

    method SelectByEmail(email: string) returns (id: Option<Id>)
      requires forall x, y | x in users && y in users && x != y :: users[x].email != users[y].email
      ensures id == ByEmail(Value(), email)
    {
      id := None;
      if exists x | x in users :: users[x].email == email {
        var x :| x in users && users[x].email == email;
        id := Some(x);
      }
    }

    method SelectByExternal(external: string) returns (id: Option<Id>)
      requires forall x, y | x in users && y in users && x != y && users[x].externalId.Some? ::
                 users[x].externalId != users[y].externalId
      ensures id == ByExternal(Value(), external)
    {
      id := None;
      if exists x | x in users :: users[x].externalId == Some(external) {
        var x :| x in users && users[x].externalId == Some(external);
        id := Some(x);
      }
    }

    /** The transaction of a sign-in with an id token; `rollback` is what the
        tables go back to. */
    method SignInOidc(ghost ops: string, a: Admission, who: Verified, id: Id) returns (r: Result<Id, AuthError>)
      requires Good(Value(), ops) && id !in used
      modifies this
      ensures (Value(), r) == OidcSignedIn(old(Value()), a, who, id)
    {
      if a.hostedDomains != []
         && !(who.hostedDomain.Some? && exists h | h in a.hostedDomains :: Lower(h) == Lower(who.hostedDomain.value)) {
        return Err(Unauthorized);
      }
      var savedUsers, savedBindings := users, bindings;
      ghost var savedUsed := used;
      var user;
      r, user := ResolveOidc(ops, a, who, id);
      if r.Ok? && !users[user].active {
        r := Err(Unauthorized);
      }
      if r.Err? {
        users, bindings := savedUsers, savedBindings;
        used := savedUsed;
      }
    }

    method ResolveOidc(ghost ops: string, a: Admission, who: Verified, id: Id) returns (r: Result<Id, AuthError>, user: Id)
      requires Good(Value(), ops) && id !in used
      modifies this
      ensures r.Ok? ==> r.value == user && OidcResolved(old(Value()), a, who, id) == Ok((Value(), user))
      ensures r.Err? ==> OidcResolved(old(Value()), a, who, id) == Err(r.error)
    {
      var k := (who.issuer, who.subject);
      if k in bindings {
        user := bindings[k].user;
        bindings := bindings[k := Binding(user, who.email)];
        if exists x | x in users :: x != user && users[x].email == who.email {
          return Err(Database), user;
        }
        users := users[user := users[user].(email := who.email)];
        return Ok(user), user;
      }
      var existing := SelectByEmail(who.email);
      if existing.Some? {
        user := existing.value;
        if exists l | l in bindings :: l.0 == who.issuer && bindings[l].user == user {
          return Err(Unauthorized), user;
        }
      } else if a.directoryOnly {
        return Err(Unauthorized), 0;
      } else {
        user := id;
        var inserted := InsertUserRow(id, User(who.email, None, true));
        if !inserted {
          return Err(Database), user;
        }
      }
      var linked := InsertBindingRow(k, Binding(user, who.email));
      r := if linked then Ok(user) else Err(Database);
    }

    method SignInOps(a: Admission, ops: string, who: Person, id: Id) returns (r: Result<Id, AuthError>)
      requires Good(Value(), ops) && id !in used
      modifies this
      ensures (Value(), r) == OpsSignedIn(old(Value()), a, ops, who, id)
    {
      var savedUsers, savedBindings := users, bindings;
      ghost var savedUsed := used;
      var user;
      r, user := ResolveOps(a, ops, who, id);
      if r.Ok? && !users[user].active {
        r := Err(Unauthorized);
      }
      if r.Err? {
        users, bindings := savedUsers, savedBindings;
        used := savedUsed;
      }
    }

    method ResolveOps(a: Admission, ops: string, who: Person, id: Id) returns (r: Result<Id, AuthError>, user: Id)
      requires Good(Value(), ops) && id !in used
      modifies this
      ensures r.Ok? ==> r.value == user && OpsResolved(old(Value()), a, ops, who, id) == Ok((Value(), user))
      ensures r.Err? ==> OpsResolved(old(Value()), a, ops, who, id) == Err(r.error)
    {
      var k := (ops, who.uuid);
      if k in bindings {
        user := bindings[k].user;
        bindings := bindings[k := Binding(user, who.email)];
        return Ok(user), user;
      }
      var provisioned := SelectByExternal(who.uuid);
      if provisioned.Some? {
        user := provisioned.value;
      } else if exists x | x in users :: Lower(users[x].email) == who.email {
        return Err(Unauthorized), 0;
      } else if a.directoryOnly {
        return Err(Unauthorized), 0;
      } else {
        user := id;
        var inserted := InsertUserRow(id, User(who.email, Some(who.uuid), true));
        if !inserted {
          return Err(Database), user;
        }
      }
      var linked := InsertBindingRow(k, Binding(user, who.email));
      r := if linked then Ok(user) else Err(Database);
    }

    method Create(ghost ops: string, req: NewUser, id: Id) returns (r: Result<Id, AuthError>)
      requires Good(Value(), ops) && id !in used
      modifies this
      ensures (Value(), r) == Created(old(Value()), req, id)
    {
      var existing := SelectByEmail(req.email);
      if existing.None? {
        var inserted := InsertUserRow(id, User(req.email, req.externalId, req.active));
        return if inserted then Ok(id) else Err(Conflict);
      }
      var x := existing.value;
      if req.externalId.None? || !(users[x].externalId.None? || users[x].externalId == req.externalId) {
        return Err(Conflict);
      }
      if exists y | y in users :: y != x && users[y].externalId == req.externalId {
        return Err(Conflict);
      }
      users := users[x := users[x].(externalId := req.externalId)];
      r := Ok(x);
    }

    method Update(id: Id, active: Option<bool>) returns (found: bool)
      modifies this
      ensures Value() == Updated(old(Value()), id, active) && found == (id in old(users))
    {
      found := id in users;
      if found && active.Some? {
        users := users[id := users[id].(active := active.value)];
      }
    }

    method Delete(id: Id) returns (found: bool)
      modifies this
      ensures Value() == Deleted(old(Value()), id) && found == (id in old(users))
    {
      found := id in users;
      users := users - {id};
      bindings := map k | k in bindings && bindings[k].user != id :: bindings[k];
    }

    method SignInDev(ghost ops: string, email: string, id: Id) returns (r: Result<Id, AuthError>)
      requires Good(Value(), ops) && id !in used
      modifies this
      ensures (Value(), r) == DevSignedIn(old(Value()), email, id)
    {
      var e := Lower(Trim(email));
      var existing := SelectByEmail(e);
      if existing.Some? {
        return if users[existing.value].active then Ok(existing.value) else Err(Unauthorized);
      }
      var inserted := InsertUserRow(id, User(e, None, true));
      r := if inserted then Ok(id) else Err(Database);
    }
  }

  // ---- Every operation keeps the tables good ----

  lemma InsertUserKeeps(d: Accounts, ops: string, id: Id, u: User)
    requires Good(d, ops) && id !in d.used
    ensures InsertUser(d, id, u).Ok? ==> Good(InsertUser(d, id, u).value, ops)
  {
  }

  lemma InsertBindingKeeps(d: Accounts, ops: string, k: BindingKey, b: Binding)
    requires Good(d, ops) && b.user in d.users
    requires k.0 == ops ==> d.users[b.user].externalId == Some(k.1)
    ensures InsertBinding(d, k, b).Ok? ==> Good(InsertBinding(d, k, b).value, ops)
  {
  }

  lemma OidcKeeps(d: Accounts, ops: string, a: Admission, who: Verified, id: Id)
    requires Good(d, ops) && id !in d.used && who.issuer != ops
    ensures Good(OidcSignedIn(d, a, who, id).0, ops)
  {
    if (who.issuer, who.subject) in d.bindings {
      OidcBoundKeeps(d, ops, a, who, id);
    } else {
      OidcNewKeeps(d, ops, a, who, id);
    }
  }

  lemma OidcBoundKeeps(d: Accounts, ops: string, a: Admission, who: Verified, id: Id)
    requires Good(d, ops) && (who.issuer, who.subject) in d.bindings
    ensures OidcResolved(d, a, who, id).Ok? ==> Good(OidcResolved(d, a, who, id).value.0, ops)
  {
  }

  lemma OidcNewKeeps(d: Accounts, ops: string, a: Admission, who: Verified, id: Id)
    requires Good(d, ops) && id !in d.used && who.issuer != ops && (who.issuer, who.subject) !in d.bindings
    ensures OidcResolved(d, a, who, id).Ok? ==> Good(OidcResolved(d, a, who, id).value.0, ops)
  {
    var k := (who.issuer, who.subject);
    var found := ByEmail(d, who.email);
    if found.Some? {
      InsertBindingKeeps(d, ops, k, Binding(found.value, who.email));
    } else {
      var u := User(who.email, None, true);
      InsertUserKeeps(d, ops, id, u);
      if InsertUser(d, id, u).Ok? {
        InsertBindingKeeps(InsertUser(d, id, u).value, ops, k, Binding(id, who.email));
      }
    }
  }

  lemma OpsKeeps(d: Accounts, ops: string, a: Admission, who: Person, id: Id)
    requires Good(d, ops) && id !in d.used
    ensures Good(OpsSignedIn(d, a, ops, who, id).0, ops)
  {
    var k := (ops, who.uuid);
    if k !in d.bindings {
      InsertUserKeeps(d, ops, id, User(who.email, Some(who.uuid), true));
      var r := OpsUser(d, a, who, id);
      if r.Ok? {
        InsertBindingKeeps(r.value.0, ops, k, Binding(r.value.1, who.email));
      }
    }
  }

  /** A claim by the directory never touches a user bound through OpsAPI: such a
      user has an external id already. */
  lemma CreatedKeeps(d: Accounts, ops: string, req: NewUser, id: Id)
    requires Good(d, ops) && id !in d.used
    ensures Good(Created(d, req, id).0, ops)
  {
    InsertUserKeeps(d, ops, id, User(req.email, req.externalId, req.active));
  }

  lemma OthersKeep(d: Accounts, ops: string, id: Id, active: Option<bool>)
    requires Good(d, ops)
    ensures Good(Updated(d, id, active), ops) && Good(Deleted(d, id), ops)
  {
  }

  // ---- Runs ----

  datatype Event =
    | OidcLogin(a: Admission, who: Verified, id: Id)
    | OpsLogin(a: Admission, person: Person, id: Id)
    | DevLogin(email: string, id: Id)
    | Provision(req: NewUser, id: Id)
    | Change(user: Id, active: Option<bool>)
    | Remove(user: Id)
    | Bootstrap(email: string, id: Id)

  /** New ids are fresh, and no OIDC issuer is the one OpsAPI logins use. */
  predicate Possible(d: Accounts, ops: string, e: Event)
  {
    match e
    case OidcLogin(_, who, id) => id !in d.used && who.issuer != ops
    case OpsLogin(_, _, id) => id !in d.used
    case DevLogin(_, id) => id !in d.used
    case Provision(_, id) => id !in d.used
    case Bootstrap(_, id) => id !in d.used
    case Change(_, _) => true
    case Remove(_) => true
  }

  /** The tables after an event, and the user it signed in. */
  ghost function After(d: Accounts, ops: string, e: Event): (out: (Accounts, Option<Id>))
    requires Good(d, ops)
  {
    match e
    case OidcLogin(a, who, id) => var (d', r) := OidcSignedIn(d, a, who, id); (d', Signed(r))
    case OpsLogin(a, person, id) => var (d', r) := OpsSignedIn(d, a, ops, person, id); (d', Signed(r))
    case DevLogin(email, id) => var (d', r) := DevSignedIn(d, email, id); (d', Signed(r))
    case Provision(req, id) => (Created(d, req, id).0, None)
    case Change(user, active) => (Updated(d, user, active), None)
    case Remove(user) => (Deleted(d, user), None)
    case Bootstrap(email, id) => (Bootstrapped(d, email, id), None)
  }

  function Signed(r: Result<Id, AuthError>): (user: Option<Id>)
  {
    if r.Ok? then Some(r.value) else None
  }

  lemma StepKeeps(d: Accounts, ops: string, e: Event)
    requires Good(d, ops) && Possible(d, ops, e)
    ensures Good(After(d, ops, e).0, ops)
  {
    match e
    case OidcLogin(a, who, id) => OidcKeeps(d, ops, a, who, id);
    case OpsLogin(a, person, id) => OpsKeeps(d, ops, a, person, id);
    case DevLogin(email, id) => InsertUserKeeps(d, ops, id, User(Lower(Trim(email)), None, true));
    case Provision(req, id) => CreatedKeeps(d, ops, req, id);
    case Change(user, active) => OthersKeep(d, ops, user, active);
    case Remove(user) => OthersKeep(d, ops, user, None);
    case Bootstrap(email, id) => InsertUserKeeps(d, ops, id, User(email, None, true));
  }

  ghost predicate IsRun(ops: string, run: seq<Accounts>, events: seq<Event>)
  {
    && |run| == |events| + 1 && run[0] == Accounts(map[], map[], {})
    && forall i | 0 <= i < |events| ::
         Good(run[i], ops) ==> Possible(run[i], ops, events[i]) && run[i + 1] == After(run[i], ops, events[i]).0
  }

  lemma {:induction false} RunKeeps(ops: string, run: seq<Accounts>, events: seq<Event>, n: nat)
    requires IsRun(ops, run, events) && n < |run|
    ensures Good(run[n], ops)
  {
    if n > 0 {
      RunKeeps(ops, run, events, n - 1);
      StepKeeps(run[n - 1], ops, events[n - 1]);
      assert run[n - 1 + 1] == run[n];
    }
  }

  /** In every run each user has at most one subject of an issuer, and an OpsAPI
      subject is its user's external id. */
  lemma BindingsAreOneToOne(ops: string, run: seq<Accounts>, events: seq<Event>, n: nat, k: BindingKey, l: BindingKey)
    requires IsRun(ops, run, events) && n < |run| && k in run[n].bindings && l in run[n].bindings
    ensures run[n].bindings[k].user in run[n].users
    ensures k.0 == l.0 && run[n].bindings[k].user == run[n].bindings[l].user ==> k == l
    ensures k.0 == ops ==> run[n].users[run[n].bindings[k].user].externalId == Some(k.1)
  {
    RunKeeps(ops, run, events, n);
  }

  // ---- Bindings do not move ----

  /** Every binding is kept on its user unless the user is deleted, and no
      deleted user comes back. */
  predicate Stable(d: Accounts, d': Accounts)
  {
    && d.used <= d'.used
    && (forall x | x in d.used && x !in d.users :: x !in d'.users)
    && forall k | k in d.bindings && d.bindings[k].user in d'.users ::
         k in d'.bindings && d'.bindings[k].user == d.bindings[k].user
  }

  lemma OidcIsStable(d: Accounts, ops: string, a: Admission, who: Verified, id: Id)
    requires Good(d, ops) && id !in d.used
    ensures Stable(d, OidcSignedIn(d, a, who, id).0)
  {
    var r := OidcResolved(d, a, who, id);
    if r.Ok? {
      if (who.issuer, who.subject) in d.bindings {
        assert Stable(d, r.value.0);
      } else {
        assert Stable(d, r.value.0);
      }
    }
  }

  lemma OpsIsStable(d: Accounts, ops: string, a: Admission, who: Person, id: Id)
    requires Good(d, ops) && id !in d.used
    ensures Stable(d, OpsSignedIn(d, a, ops, who, id).0)
  {
  }

  lemma StepIsStable(d: Accounts, ops: string, e: Event)
    requires Good(d, ops) && Possible(d, ops, e)
    ensures Stable(d, After(d, ops, e).0)
  {
    hide Good, Stable, OidcSignedIn, OpsSignedIn, Created, Updated, Deleted, DevSignedIn, Bootstrapped;
    match e
    case OidcLogin(a, who, id) => OidcIsStable(d, ops, a, who, id);
    case OpsLogin(a, person, id) => OpsIsStable(d, ops, a, person, id);
    case Provision(req, id) => CreatedIsStable(d, ops, req, id);
    case Change(user, active) => OthersAreStable(d, ops, user, active);
    case Remove(user) => OthersAreStable(d, ops, user, None);
    case _ => InsertsAreStable(d, ops, e);
  }

  lemma CreatedIsStable(d: Accounts, ops: string, req: NewUser, id: Id)
    requires Good(d, ops) && id !in d.used
    ensures Stable(d, Created(d, req, id).0)
  {
  }

  lemma OthersAreStable(d: Accounts, ops: string, id: Id, active: Option<bool>)
    requires Good(d, ops)
    ensures Stable(d, Updated(d, id, active)) && Stable(d, Deleted(d, id))
  {
  }

  lemma InsertsAreStable(d: Accounts, ops: string, e: Event)
    requires Good(d, ops) && Possible(d, ops, e) && (e.DevLogin? || e.Bootstrap?)
    ensures Stable(d, After(d, ops, e).0)
  {
  }

  lemma RunStep(ops: string, run: seq<Accounts>, events: seq<Event>, n: nat)
    requires IsRun(ops, run, events) && n < |events|
    ensures Good(run[n], ops) && Possible(run[n], ops, events[n]) && run[n + 1] == After(run[n], ops, events[n]).0
  {
    RunKeeps(ops, run, events, n);
  }

  lemma RunIsStable(ops: string, run: seq<Accounts>, events: seq<Event>, n: nat)
    requires IsRun(ops, run, events) && n < |events|
    ensures Stable(run[n], run[n + 1])
  {
    RunStep(ops, run, events, n);
    StepIsStable(run[n], ops, events[n]);
  }

  lemma BoundIsKnown(ops: string, run: seq<Accounts>, events: seq<Event>, n: nat, k: BindingKey)
    requires IsRun(ops, run, events) && n < |run| && k in run[n].bindings
    ensures run[n].bindings[k].user in run[n].used && run[n].bindings[k].user in run[n].users
  {
    RunKeeps(ops, run, events, n);
  }

  lemma {:induction false} DeletedStaysDeleted(ops: string, run: seq<Accounts>, events: seq<Event>, i: nat, j: nat, x: Id)
    requires IsRun(ops, run, events) && i <= j < |run| && x in run[i].used
    ensures x in run[j].used && (x !in run[i].users ==> x !in run[j].users)
  {
    if i < j {
      DeletedStaysDeleted(ops, run, events, i, j - 1, x);
      RunIsStable(ops, run, events, j - 1);
    }
  }

  /** Once a subject of an issuer is bound to a user it stays bound to that user
      for as long as the user exists, whatever emails it later presents. */
  lemma {:induction false} BindingIsForLife(ops: string, run: seq<Accounts>, events: seq<Event>, i: nat, j: nat, k: BindingKey)
    requires IsRun(ops, run, events) && i <= j < |run|
    requires k in run[i].bindings && run[i].bindings[k].user in run[j].users
    ensures k in run[j].bindings && run[j].bindings[k].user == run[i].bindings[k].user
  {
    if i < j {
      BoundIsKnown(ops, run, events, i, k);
      DeletedStaysDeleted(ops, run, events, i, j - 1, run[i].bindings[k].user);
      RunIsStable(ops, run, events, j - 1);
      BindingIsForLife(ops, run, events, i, j - 1, k);
    }
  }

  // ---- Deactivated users ----

  predicate Reactivates(e: Event, x: Id)
  {
    e == Change(x, Some(true))
  }

  /** No event but an administrator's makes an inactive user active. */
  lemma StepLeavesInactive(d: Accounts, ops: string, e: Event, x: Id)
    requires Good(d, ops) && Possible(d, ops, e) && x in d.users && !d.users[x].active && !Reactivates(e, x)
    ensures var d' := After(d, ops, e).0; x in d'.users ==> !d'.users[x].active
  {
  }

  lemma SignsInOnlyActive(d: Accounts, ops: string, e: Event, x: Id)
    requires Good(d, ops) && Possible(d, ops, e) && x in d.users && !d.users[x].active
    ensures After(d, ops, e).1 != Some(x)
  {
  }

  lemma SignsInOnlyKnown(d: Accounts, ops: string, e: Event, x: Id)
    requires Good(d, ops) && Possible(d, ops, e) && x !in d.users && x in d.used
    ensures After(d, ops, e).1 != Some(x)
  {
  }

  lemma RunLeavesInactive(ops: string, run: seq<Accounts>, events: seq<Event>, n: nat, x: Id)
    requires IsRun(ops, run, events) && n < |events| && x in run[n].users && !run[n].users[x].active
    requires !Reactivates(events[n], x)
    ensures x in run[n + 1].users ==> !run[n + 1].users[x].active
  {
    RunStep(ops, run, events, n);
    StepLeavesInactive(run[n], ops, events[n], x);
  }

  lemma {:induction false} InactiveStays(ops: string, run: seq<Accounts>, events: seq<Event>, i: nat, j: nat, x: Id)
    requires IsRun(ops, run, events) && i <= j < |run|
    requires x in run[i].used && (x in run[i].users ==> !run[i].users[x].active)
    requires forall n | i <= n < j :: !Reactivates(events[n], x)
    ensures x in run[j].used && (x in run[j].users ==> !run[j].users[x].active)
  {
    hide Good;
    if i < j {
      InactiveStays(ops, run, events, i, j - 1, x);
      RunIsStable(ops, run, events, j - 1);
      if x in run[j - 1].users {
        RunLeavesInactive(ops, run, events, j - 1, x);
      }
    }
  }

  /** From the moment a user is deactivated until an administrator reactivates
      it, it stays inactive and no way of signing in returns it. */
  lemma InactiveStaysOut(ops: string, run: seq<Accounts>, events: seq<Event>, i: nat, j: nat, x: Id)
    requires IsRun(ops, run, events) && i <= j < |events|
    requires x in run[i].users && !run[i].users[x].active
    requires forall n | i <= n < j :: !Reactivates(events[n], x)
    ensures x in run[j].users ==> !run[j].users[x].active
    ensures Good(run[j], ops) && After(run[j], ops, events[j]).1 != Some(x)
  {
    RunKeeps(ops, run, events, i);
    InactiveStays(ops, run, events, i, j, x);
    RunStep(ops, run, events, j);
    if x in run[j].users {
      SignsInOnlyActive(run[j], ops, events[j], x);
    } else {
      SignsInOnlyKnown(run[j], ops, events[j], x);
    }
  }

  // ---- Who provisioning and the development login reach ----

  /** The email is another person's, or the external id is. */
  predicate Clashes(d: Accounts, req: NewUser)
  {
    || (exists x | x in d.users :: d.users[x].email == req.email
          && (req.externalId.None? || !(d.users[x].externalId in {None, req.externalId})))
    || (req.externalId.Some? && exists x | x in d.users :: d.users[x].externalId == req.externalId && d.users[x].email != req.email)
  }

  /** Row `x` as provisioning may leave it: the external id filled in, no more. */
  predicate ClaimedOnly(d: Accounts, d': Accounts, x: Id, req: NewUser)
    requires x in d.users
  {
    && x in d'.users && d'.users[x].email == d.users[x].email && d'.users[x].active == d.users[x].active
    && (d'.users[x].externalId == d.users[x].externalId
        || (d.users[x].externalId.None? && d'.users[x].email == req.email && d'.users[x].externalId == req.externalId))
  }

  /** `create` is refused exactly when the email or the external id is someone
      else's. Otherwise the user it returns has both, every row there was keeps its
      email and whether it is active, and a second `create` finds the same user. */
  lemma CreatedExactly(d: Accounts, ops: string, req: NewUser, id: Id)
    requires Good(d, ops) && id !in d.used
    ensures var (d', r) := Created(d, req, id);
            && (r.Err? <==> Clashes(d, req)) && (r.Err? ==> r == Err(Conflict) && d' == d)
            && (r.Ok? ==> r.value in d'.users && d'.users[r.value].email == req.email && d'.users[r.value].externalId == req.externalId
                          && d'.users.Keys == d.users.Keys + {r.value}
                          && (r.value in d.users || (r.value == id && d'.users[id].active == req.active)))
            && d'.bindings == d.bindings && forall x | x in d.users :: ClaimedOnly(d, d', x, req)
  {
    CreatedConflicts(d, ops, req, id);
    var found := ByEmail(d, req.email);
    if found.Some? && !Clashes(d, req) {
      assert Created(d, req, id).0.users == d.users[found.value := d.users[found.value].(externalId := req.externalId)];
    }
  }

  lemma CreatedConflicts(d: Accounts, ops: string, req: NewUser, id: Id)
    requires Good(d, ops)
    ensures Created(d, req, id).1.Err? <==> Clashes(d, req)
  {
  }

  /** What a retried request finds. */
  lemma CreatedAgain(d: Accounts, ops: string, req: NewUser, id: Id, other: Id)
    requires Good(d, ops) && id !in d.used && Created(d, req, id).1.Ok? && req.externalId.Some?
    ensures var (d', r) := Created(d, req, id);
            Created(d', req, other) == (d', r)
  {
    CreatedExactly(d, ops, req, id);
    CreatedKeeps(d, ops, req, id);
    var (d', r) := Created(d, req, id);
    assert EmailTaken(d', req.email);
    assert ByEmail(d', req.email) == Some(r.value);
    assert d'.users[r.value := d'.users[r.value].(externalId := req.externalId)] == d'.users;
  }

  /** The development login fails exactly for an inactive user's email, changes no
      row there is, and returns the one active user of that email, known or new. */
  lemma DevSignInExactly(d: Accounts, ops: string, email: string, id: Id)
    requires Good(d, ops) && id !in d.used
    ensures var (d', r) := DevSignedIn(d, email, id);
            var e := Lower(Trim(email));
            && (r.Err? <==> exists x | x in d.users :: d.users[x].email == e && !d.users[x].active)
            && (r.Err? ==> r == Err(Unauthorized) && d' == d)
            && (r.Ok? ==> r.value in d'.users && d'.users[r.value].email == e && d'.users[r.value].active
                          && d'.users.Keys == d.users.Keys + {r.value} && (EmailTaken(d, e) <==> r.value in d.users))
            && d'.bindings == d.bindings && forall x | x in d.users :: x in d'.users && d'.users[x] == d.users[x]
  {
    var e := Lower(Trim(email));
    assert forall x | x in d.users && d.users[x].email == e :: ByEmail(d, e) == Some(x);
  }

  // ---- Who a sign-in returns ----

  /** A token whose subject is bound signs in that user or nobody, whatever its
      email; one whose subject is not never signs in a user who already has a
      subject of the issuer. A refused sign-in changes nothing. */
  lemma OidcNeverMerges(d: Accounts, ops: string, a: Admission, who: Verified, id: Id)
    requires Good(d, ops) && id !in d.used
    ensures var (d', r) := OidcSignedIn(d, a, who, id);
            var k := (who.issuer, who.subject);
            && (r.Err? ==> d' == d)
            && (r.Ok? ==> k in d'.bindings && d'.bindings[k].user == r.value && d'.users[r.value].active)
            && (r.Ok? && k in d.bindings ==> r.value == d.bindings[k].user)
            && (r.Ok? && k !in d.bindings && r.value in d.users ==>
                  !HasBinding(d, who.issuer, r.value) && d.users[r.value].email == who.email)
  {
  }

  /** An OIDC sign-in succeeds exactly when the token is admitted and either its
      subject is bound to an active user and nobody else has the email; or is not
      bound, and an active user without a subject of the issuer has it; or nobody has
      it and newcomers may come in. */
  lemma OidcSignInExactly(d: Accounts, ops: string, a: Admission, who: Verified, id: Id)
    requires Good(d, ops) && id !in d.used
    ensures var r, k := OidcSignedIn(d, a, who, id).1, (who.issuer, who.subject);
            forall x :: r == Ok(x) <==>
              && Admitted(a, who)
              && (|| (k in d.bindings && x == d.bindings[k].user && d.users[x].active
                      && forall y | y in d.users && y != x :: d.users[y].email != who.email)
                  || (k !in d.bindings && x in d.users && d.users[x].email == who.email && d.users[x].active
                      && !HasBinding(d, who.issuer, x))
                  || (k !in d.bindings && x == id && !EmailTaken(d, who.email) && !a.directoryOnly))
  {
    var k := (who.issuer, who.subject);
    if k !in d.bindings {
      OidcUnboundExactly(d, ops, a, who, id);
    }
  }

  lemma OidcUnboundExactly(d: Accounts, ops: string, a: Admission, who: Verified, id: Id)
    requires Good(d, ops) && id !in d.used && (who.issuer, who.subject) !in d.bindings
    ensures var r := Committed(d, OidcResolved(d, a, who, id)).1;
            forall x :: r == Ok(x) <==>
              || (x in d.users && d.users[x].email == who.email && d.users[x].active && !HasBinding(d, who.issuer, x))
              || (x == id && !EmailTaken(d, who.email) && !a.directoryOnly)
  {
    assert !HasBinding(d, who.issuer, id);
    forall x | x in d.users && d.users[x].email == who.email ensures ByEmail(d, who.email) == Some(x) {
    }
  }

  /** An OpsAPI login succeeds exactly when the user with its id as external id
      is active, or nobody has the id or the email and newcomers may come in; no
      email ever links one. */
  lemma OpsSignInExactly(d: Accounts, ops: string, a: Admission, who: Person, id: Id)
    requires Good(d, ops) && id !in d.used && Lower(who.email) == who.email
    ensures var (d', r) := OpsSignedIn(d, a, ops, who, id);
            && (r.Err? ==> d' == d)
            && (r.Ok? ==> d'.users[r.value].externalId == Some(who.uuid))
            && forall x :: r == Ok(x) <==>
                 || (x in d.users && d.users[x].externalId == Some(who.uuid) && d.users[x].active)
                 || (x == id && !ExternalTaken(d, Some(who.uuid)) && !LowerEmailTaken(d, who.email) && !a.directoryOnly)
  {
    var k := (ops, who.uuid);
    if k !in d.bindings {
      NoneUnderExternal(d, ops, who.uuid);
      if ByExternal(d, who.uuid).None? {
        assert EmailTaken(d, who.email) ==> LowerEmailTaken(d, who.email);
        assert !HasBinding(d, ops, id);
      }
    }
  }

  lemma NoneUnderExternal(d: Accounts, ops: string, uuid: string)
    requires Good(d, ops) && (ops, uuid) !in d.bindings
    ensures forall x | x in d.users && d.users[x].externalId == Some(uuid) :: !HasBinding(d, ops, x)
  {
  }
}
