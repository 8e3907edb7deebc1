/** The user accounts of the authentication module: the utilisateurs table,
    the Utilisateur bean, UtilisateurService over one entity manager, and the
    login decision of AuthentificationService. Passwords reach the table only
    through SecurityService.hashPassword. */
module AuthUsers {
  import opened Common
  import opened AuthSecurity

  /** The length = 50 of nom_utilisateur. */
  const NOM_UTILISATEUR_LENGTH: int := 50
  /** The length = 100 of email. */
  const EMAIL_LENGTH: int := 100
  /** The length = 20 of role. */
  const ROLE_LENGTH: int := 20

  /** The fields of a user a caller chooses. actif is a primitive boolean. */
  datatype UserFields = UserFields(
    nomUtilisateur: Option<string>,
    motDePasse: Option<string>,
    email: Option<string>,
    role: Option<string>,
    actif: bool)

  /** A stored user; every column but the two dates is NOT NULL. */
  datatype User = User(
    id: int,
    nomUtilisateur: string,
    motDePasse: string,
    email: string,
    role: string,
    actif: bool,
    dateCreation: int,
    dateModification: int)

  function UserFieldsOf(u: User): UserFields
  {
    UserFields(Some(u.nomUtilisateur), Some(u.motDePasse), Some(u.email), Some(u.role), u.actif)
  }

  /** The column constraints of one row; the two unique constraints are table properties. */
  predicate UserInsertable(f: UserFields)
  {
    && f.nomUtilisateur.Some? && |f.nomUtilisateur.value| <= NOM_UTILISATEUR_LENGTH
    && f.motDePasse.Some?
    && f.email.Some? && |f.email.value| <= EMAIL_LENGTH
    && f.role.Some? && |f.role.value| <= ROLE_LENGTH
  }

  function NewUser(id: int, f: UserFields, dateCreation: int, dateModification: int): (u: User)
    requires UserInsertable(f)
    ensures UserFieldsOf(u) == f && u.id == id && u.dateCreation == dateCreation && u.dateModification == dateModification
  {
    User(id, f.nomUtilisateur.value, f.motDePasse.value, f.email.value, f.role.value, f.actif, dateCreation, dateModification)
  }

  /** A Utilisateur object: a request body or a bean loaded by em.find. */
  class Utilisateur {
    var id: Option<int>
    var nomUtilisateur: Option<string>
    var motDePasse: Option<string>
    var email: Option<string>
    var role: Option<string>
    var actif: bool
    var dateCreation: Option<int>
    var dateModification: Option<int>

    /** The implicit constructor: actif starts true. */
    constructor ()
      ensures Fields() == UserFields(None, None, None, None, true)
      ensures id.None? && dateCreation.None? && dateModification.None?
    {
      id, nomUtilisateur, motDePasse, email, role := None, None, None, None, None;
      actif, dateCreation, dateModification := true, None, None;
    }

    /** A bean holding a stored row. */
    constructor Loaded(u: User)
      ensures Fields() == UserFieldsOf(u) && id == Some(u.id)
      ensures dateCreation == Some(u.dateCreation) && dateModification == Some(u.dateModification)
    {
      id, nomUtilisateur, motDePasse, email, role := Some(u.id), Some(u.nomUtilisateur), Some(u.motDePasse), Some(u.email), Some(u.role);
      actif, dateCreation, dateModification := u.actif, Some(u.dateCreation), Some(u.dateModification);
    }

    function Fields(): UserFields
      reads this`nomUtilisateur, this`motDePasse, this`email, this`role, this`actif
    {
      UserFields(nomUtilisateur, motDePasse, email, role, actif)
    }
  }

  /** setMotDePasse on a bean. */
  method SetMotDePasse(u: Utilisateur, hash: string)
    modifies u`motDePasse
    ensures u.Fields() == old(u.Fields()).(motDePasse := Some(hash))
  {
    u.motDePasse := Some(hash);
  }

  /** The row a merge writes back for a stored user whose bean got a new hash:
      the stored row with that hash and a new modification time. */
  lemma RehashedRow(stored: User, hash: string, now: int)
    ensures UserInsertable(UserFieldsOf(stored).(motDePasse := Some(hash))) == UserInsertable(UserFieldsOf(stored))
    ensures UserInsertable(UserFieldsOf(stored)) ==>
      NewUser(stored.id, UserFieldsOf(stored).(motDePasse := Some(hash)), stored.dateCreation, now)
        == stored.(motDePasse := hash, dateModification := now)
  {
  }

  // ---------------------------------------------------------------------------
  // The table
  // ---------------------------------------------------------------------------

  function UserId(id: int): User -> bool
  {
    (u: User) => u.id == id
  }

  function NotUserId(id: int): User -> bool
  {
    (u: User) => u.id != id
  }

  /** WHERE u.nomUtilisateur = :username */
  function NameIs(name: string): User -> bool
  {
    (u: User) => u.nomUtilisateur == name
  }

  function UserIdBefore(): (User, User) -> bool
  {
    (a: User, b: User) => a.id < b.id
  }

  /** The unique constraints on nom_utilisateur and email, between two rows. */
  function DistinctKeys(): (User, User) -> bool
  {
    (a: User, b: User) => a.nomUtilisateur != b.nomUtilisateur && a.email != b.email
  }

  /** Identity values grow with insertion order and were all handed out;
      user names and e-mail addresses are unique. */
  predicate UsersKeyed(users: seq<User>, nextId: int)
  {
    && (forall i :: 0 <= i < |users| ==> UserInsertable(UserFieldsOf(users[i])))
    && Pairwise(UserIdBefore(), users) && Pairwise(DistinctKeys(), users)
    && forall i :: 0 <= i < |users| ==> 1 <= users[i].id < nextId
  }

  /** No row other than the one with this id has the name or the e-mail of f. */
  predicate KeysFree(users: seq<User>, f: UserFields, id: int)
  {
    forall i :: 0 <= i < |users| && users[i].id != id ==>
      Some(users[i].nomUtilisateur) != f.nomUtilisateur && Some(users[i].email) != f.email
  }

  /** em.find(Utilisateur.class, id). */
  function FindUser(users: seq<User>, id: int): (r: Option<User>)
    ensures r.Some? ==> r.value in users && r.value.id == id
    ensures r.None? <==> forall u :: u in users ==> u.id != id
  {
    match FirstIndex(UserId(id), users)
    case None => None
    case Some(i) => Some(users[i])
  }

  /** findByUsername: getSingleResult of the query, with its NoResultException
      and NonUniqueResultException read as null. A null name matches no row. */
  function FindByUsername(users: seq<User>, username: Option<string>): (r: Option<User>)
    ensures r.Some? ==> r.value in users && username == Some(r.value.nomUtilisateur)
    ensures r.Some? <==> username.Some? && Count(NameIs(username.value), users) == 1
  {
    if username.None? then None
    else
      var matches := Filter(NameIs(username.value), users);
      CountIsFilterLength(NameIs(username.value), users);
      if |matches| == 1 then Some(matches[0]) else None
  }

  lemma {:induction false} CountNone<T>(p: T -> bool, s: seq<T>)
    requires forall i :: 0 <= i < |s| ==> !p(s[i])
    ensures Count(p, s) == 0
  {
    if s != [] {
      CountNone(p, s[1..]);
    }
  }

  /** Under the unique constraint a name is on at most one row, and on exactly
      one when some user has it. */
  lemma {:induction false} NameCount(users: seq<User>, name: string)
    requires Pairwise(DistinctKeys(), users)
    ensures Count(NameIs(name), users) <= 1
    ensures (exists i :: 0 <= i < |users| && users[i].nomUtilisateur == name) ==> Count(NameIs(name), users) == 1
  {
    if users != [] {
      var rest := users[1..];
      assert Pairwise(DistinctKeys(), rest) by {
        forall i, j | 0 <= i < j < |rest| ensures DistinctKeys()(rest[i], rest[j]) {
          assert rest[i] == users[i + 1] && rest[j] == users[j + 1];
        }
      }
      NameCount(rest, name);
      if users[0].nomUtilisateur == name {
        forall k | 0 <= k < |rest| ensures !NameIs(name)(rest[k]) {
          assert DistinctKeys()(users[0], users[k + 1]);
        }
        CountNone(NameIs(name), rest);
      } else if exists i :: 0 <= i < |users| && users[i].nomUtilisateur == name {
        var i :| 0 <= i < |users| && users[i].nomUtilisateur == name;
        assert rest[i - 1].nomUtilisateur == name;
      }
    }
  }

  /** Under the unique constraint findByUsername finds each user by name. */
  lemma FindByUsernameUnique(users: seq<User>, u: User)
    requires Pairwise(DistinctKeys(), users) && u in users
    ensures FindByUsername(users, Some(u.nomUtilisateur)) == Some(u)
  {
    var i :| 0 <= i < |users| && users[i] == u;
    NameCount(users, u.nomUtilisateur);
    var r := FindByUsername(users, Some(u.nomUtilisateur)).value;
    var j :| 0 <= j < |users| && users[j] == r;
  }

  /** findByUsername returns null for a name no user has. */
  lemma FindByUsernameAbsent(users: seq<User>, name: string)
    requires forall u :: u in users ==> u.nomUtilisateur != name
    ensures FindByUsername(users, Some(name)).None?
  {
  }

  // ---------------------------------------------------------------------------
  // Login
  // ---------------------------------------------------------------------------

  /** AuthentificationService.login at time now: a token for an active user
      found by name whose password checks against the stored hash, else null. */
  function Login(users: seq<User>, sec: SecurityService, username: Option<string>, password: Option<string>, now: int): (r: Option<string>)
    ensures r.Some? ==> FindByUsername(users, username).Some? && FindByUsername(users, username).value.actif
    ensures r.Some? ==> var u := FindByUsername(users, username).value;
      CheckPassword(sec, password, u.motDePasse) && r.value == GenerateToken(sec, u.nomUtilisateur, u.role, u.id, now)
  {
    var u := FindByUsername(users, username);
    if u.Some? && u.value.actif && CheckPassword(sec, password, u.value.motDePasse) then
      Some(GenerateToken(sec, u.value.nomUtilisateur, u.value.role, u.value.id, now))
    else None
  }

  /** No user has the name: no token. */
  lemma LoginUnknownUser(users: seq<User>, sec: SecurityService, name: string, password: Option<string>, now: int)
    requires forall u :: u in users ==> u.nomUtilisateur != name
    ensures Login(users, sec, Some(name), password, now).None?
  {
    FindByUsernameAbsent(users, name);
  }

  /** An inactive user gets no token, whatever the password. */
  lemma LoginInactiveUser(users: seq<User>, sec: SecurityService, u: User, password: Option<string>, now: int)
    requires Pairwise(DistinctKeys(), users) && u in users && !u.actif
    ensures Login(users, sec, Some(u.nomUtilisateur), password, now).None?
  {
    FindByUsernameUnique(users, u);
  }

  /** A password that does not check against the stored hash gets no token. */
  lemma LoginWrongPassword(users: seq<User>, sec: SecurityService, u: User, password: Option<string>, now: int)
    requires Pairwise(DistinctKeys(), users) && u in users && !CheckPassword(sec, password, u.motDePasse)
    ensures Login(users, sec, Some(u.nomUtilisateur), password, now).None?
  {
    FindByUsernameUnique(users, u);
  }

  /** An active user with a matching password gets the token of their own
      name, role and id. */
  lemma LoginSucceeds(users: seq<User>, sec: SecurityService, u: User, password: Option<string>, now: int)
    requires Pairwise(DistinctKeys(), users) && u in users && u.actif && CheckPassword(sec, password, u.motDePasse)
    ensures Login(users, sec, Some(u.nomUtilisateur), password, now) == Some(GenerateToken(sec, u.nomUtilisateur, u.role, u.id, now))
  {
    FindByUsernameUnique(users, u);
  }

  /** End to end: a token from login, presented as "Bearer <token>" while the
      signer still accepts it, authenticates the request as that user: the
      installed context names the user, and the user's role passes its role check. */
  lemma LoginThenFilter(users: seq<User>, sec: SecurityService, u: User, password: Option<string>, now: int, later: int)
    requires Pairwise(DistinctKeys(), users) && u in users && u.actif && CheckPassword(sec, password, u.motDePasse)
    requires sec.parse(GenerateToken(sec, u.nomUtilisateur, u.role, u.id, now), later) == Some(TokenClaims(u.nomUtilisateur, u.role, u.id, now))
    ensures Login(users, sec, Some(u.nomUtilisateur), password, now).Some?
    ensures var d := Decide(Some(BEARER_PREFIX + Login(users, sec, Some(u.nomUtilisateur), password, now).value), sec, later);
      && d == Authenticate(Some(u.nomUtilisateur), Some(u.role))
      && PrincipalName(AuthenticatedAsWritten(d.username, d.role)) == Some(u.nomUtilisateur)
      && IsUserInRole(AuthenticatedAsWritten(d.username, d.role), u.role) == Some(true)
  {
    LoginSucceeds(users, sec, u, password, now);
    BearerTokenOfHeader(GenerateToken(sec, u.nomUtilisateur, u.role, u.id, now));
    RoleCheckSymmetric(Some(u.nomUtilisateur), u.role, u.role, AskCurrent);
  }

  // ---------------------------------------------------------------------------
  // Table invariants kept by the updates
  // ---------------------------------------------------------------------------

  lemma AppendUserKeepsKeys(users: seq<User>, nextId: int, row: User)
    requires UsersKeyed(users, nextId) && 1 <= nextId && row.id == nextId
    requires UserInsertable(UserFieldsOf(row)) && KeysFree(users, UserFieldsOf(row), row.id)
    ensures UsersKeyed(users + [row], nextId + 1)
  {
    PairwiseSnoc(UserIdBefore(), users, row);
    PairwiseSnoc(DistinctKeys(), users, row);
    var grown := users + [row];
    forall i | 0 <= i < |grown| ensures 1 <= grown[i].id < nextId + 1 {
      if i < |users| {
        assert grown[i] == users[i];
      }
    }
  }

  /** The row replacing the one with its id keeps ids ordered and keys unique. */
  lemma ReplaceUserPairwise(users: seq<User>, nextId: int, row: User)
    requires UsersKeyed(users, nextId) && KeysFree(users, UserFieldsOf(row), row.id)
    ensures var r := ReplaceWhere(UserId(row.id), users, row);
      Pairwise(UserIdBefore(), r) && Pairwise(DistinctKeys(), r)
  {
    var r := ReplaceWhere(UserId(row.id), users, row);
    forall i, j | 0 <= i < j < |r| ensures UserIdBefore()(r[i], r[j]) && DistinctKeys()(r[i], r[j]) {
      assert UserIdBefore()(users[i], users[j]) && DistinctKeys()(users[i], users[j]);
      if users[i].id == row.id {
        assert r[i] == row && r[j] == users[j];
      } else if users[j].id == row.id {
        assert r[j] == row && r[i] == users[i];
      } else {
        assert r[i] == users[i] && r[j] == users[j];
      }
    }
  }

  lemma ReplaceUserKeepsKeys(users: seq<User>, nextId: int, row: User)
    requires UsersKeyed(users, nextId) && UserInsertable(UserFieldsOf(row)) && KeysFree(users, UserFieldsOf(row), row.id)
    requires FindUser(users, row.id).Some?
    ensures var r := ReplaceWhere(UserId(row.id), users, row);
      UsersKeyed(r, nextId) && FindUser(r, row.id) == Some(row)
  {
    var r := ReplaceWhere(UserId(row.id), users, row);
    ReplaceUserPairwise(users, nextId, row);
    forall i | 0 <= i < |r| ensures UserInsertable(UserFieldsOf(r[i])) && 1 <= r[i].id < nextId {
      assert users[i].id == row.id ==> r[i] == row;
    }
    ReplaceUserFinds(users, row);
  }

  /** A stored user changed only in its hash and modification time keeps the
      table keyed, and is found in its place. */
  lemma RehashKeepsKeys(users: seq<User>, nextId: int, stored: User, row: User)
    requires UsersKeyed(users, nextId) && FindUser(users, stored.id) == Some(stored)
    requires row == stored.(motDePasse := row.motDePasse, dateModification := row.dateModification)
    ensures var r := ReplaceWhere(UserId(row.id), users, row);
      UsersKeyed(r, nextId) && FindUser(r, row.id) == Some(row)
  {
    var k :| 0 <= k < |users| && users[k] == stored;
    forall i | 0 <= i < |users| && users[i].id != row.id
      ensures Some(users[i].nomUtilisateur) != UserFieldsOf(row).nomUtilisateur && Some(users[i].email) != UserFieldsOf(row).email
    {
      assert i != k;
      if i < k {
        assert DistinctKeys()(users[i], users[k]);
      } else {
        assert DistinctKeys()(users[k], users[i]);
      }
    }
    ReplaceUserKeepsKeys(users, nextId, row);
  }

  /** The replaced row is the one found under its id. */
  lemma ReplaceUserFinds(users: seq<User>, row: User)
    requires FindUser(users, row.id).Some?
    ensures FindUser(ReplaceWhere(UserId(row.id), users, row), row.id) == Some(row)
  {
    var r := ReplaceWhere(UserId(row.id), users, row);
    var k :| 0 <= k < |users| && users[k] == FindUser(users, row.id).value;
    assert r[k] == row;
    var first := FirstIndex(UserId(row.id), r).value;
    assert UserId(row.id)(r[first]);
  }

  lemma RemoveUserKeepsKeys(users: seq<User>, nextId: int, id: int)
    requires UsersKeyed(users, nextId)
    ensures var kept := Filter(NotUserId(id), users);
      UsersKeyed(kept, nextId) && FindUser(kept, id).None?
      && forall u :: u in users && u.id != id ==> u in kept
  {
    var kept := Filter(NotUserId(id), users);
    FilterPairwise(NotUserId(id), UserIdBefore(), users);
    FilterPairwise(NotUserId(id), DistinctKeys(), users);
    forall k | 0 <= k < |kept| ensures 1 <= kept[k].id < nextId {
      var m :| 0 <= m < |users| && users[m] == kept[k];
    }
    forall u | u in users && u.id != id ensures u in kept {
      var m :| 0 <= m < |users| && users[m] == u;
      assert NotUserId(id)(users[m]);
    }
  }

  // ---------------------------------------------------------------------------
  // UtilisateurService
  // ---------------------------------------------------------------------------

  class UtilisateurService {
    /** The utilisateurs table, in insertion order. */
    var users: seq<User>
    var nextId: int
    /** LocalDateTime.now(). */
    var clock: int
    /** The injected SecurityService. */
    const securityService: SecurityService

    ghost predicate Valid()
      reads this
    {
      1 <= nextId && UsersKeyed(users, nextId)
    }

    constructor (securityService: SecurityService, start: int)
      ensures Valid() && users == [] && nextId == 1 && clock == start && this.securityService == securityService
    {
      users, nextId, clock := [], 1, start;
      this.securityService := securityService;
    }

    /** create(utilisateur): the password is replaced by its hash, then the
        bean is persisted. A null password makes hashpw throw; a bean with an
        id is refused as detached; a constraint violation refuses the insert.
        The hash is on the bean whatever the persist does. */
    method Create(u: Utilisateur, salt: string) returns (res: Result<Utilisateur>)
      requires Valid()
      modifies this`users, this`nextId, u`motDePasse, u`id, u`dateCreation, u`dateModification
      ensures Valid() && clock == old(clock)
      ensures old(u.motDePasse).None? ==> res == Err(NullPointer) && u.motDePasse.None?
      ensures old(u.motDePasse).Some? ==> u.motDePasse == Some(securityService.hashpw(old(u.motDePasse).value, salt))
      ensures u.nomUtilisateur == old(u.nomUtilisateur) && u.email == old(u.email) && u.role == old(u.role) && u.actif == old(u.actif)
      ensures res.Ok? <==> old(u.motDePasse).Some? && old(u.id).None? && UserInsertable(u.Fields())
                           && KeysFree(old(users), u.Fields(), old(nextId))
      ensures res.Ok? ==> (res.value == u && u.id == Some(old(nextId)) && nextId == old(nextId) + 1
        && u.dateCreation == Some(clock) && u.dateModification == Some(clock)
        && users == old(users) + [NewUser(old(nextId), u.Fields(), clock, clock)])
      ensures res.Ok? ==> users[|users| - 1].motDePasse == securityService.hashpw(old(u.motDePasse).value, salt)
      ensures res.Err? ==> users == old(users) && nextId == old(nextId) && u.id == old(u.id)
    {
      if u.motDePasse.None? {
        return Err(NullPointer);
      }
      u.motDePasse := Some(securityService.hashpw(u.motDePasse.value, salt));
      if u.id.Some? {
        return Err(PersistenceException);
      }
      u.dateCreation, u.dateModification := Some(clock), Some(clock);
      var f := u.Fields();
      if !UserInsertable(f) || !KeysFree(users, f, nextId) {
        return Err(PersistenceException);
      }
      var row := NewUser(nextId, f, clock, clock);
      AppendUserKeepsKeys(users, nextId, row);
      users := users + [row];
      u.id := Some(nextId);
      nextId := nextId + 1;
      res := Ok(u);
    }

    /** findById(id): a managed bean holding the row, or null. */
    method FindById(id: int) returns (u: Utilisateur?)
      ensures u == null <==> FindUser(users, id).None?
      ensures u != null ==> (fresh(u) && u.id == Some(id) && u.Fields() == UserFieldsOf(FindUser(users, id).value)
        && u.dateCreation == Some(FindUser(users, id).value.dateCreation))
    {
      var row := FindUser(users, id);
      if row.None? {
        return null;
      }
      u := new Utilisateur.Loaded(row.value);
    }

    /** update(utilisateur): em.merge, the password taken as it is. A bean
        without id is inserted; a bean whose id is stored overwrites that row,
        except date_creation, which is not updatable, and @PreUpdate stamps
        date_modification; a bean whose row is gone is refused. */
    method Update(u: Utilisateur) returns (res: Result<User>)
      requires Valid()
      modifies this`users, this`nextId
      ensures Valid() && clock == old(clock)
      ensures u.id.None? ==> (res.Ok? <==> UserInsertable(u.Fields()) && KeysFree(old(users), u.Fields(), old(nextId)))
      ensures u.id.Some? ==> (res.Ok? <==> FindUser(old(users), u.id.value).Some? && UserInsertable(u.Fields())
                                           && KeysFree(old(users), u.Fields(), u.id.value))
      ensures res.Ok? && u.id.None? ==> (res.value == NewUser(old(nextId), u.Fields(), clock, clock)
        && users == old(users) + [res.value] && nextId == old(nextId) + 1)
      ensures res.Ok? && u.id.Some? ==> (
        res.value == NewUser(u.id.value, u.Fields(), FindUser(old(users), u.id.value).value.dateCreation, clock)
        && users == ReplaceWhere(UserId(u.id.value), old(users), res.value)
        && FindUser(users, u.id.value) == Some(res.value) && nextId == old(nextId))
      ensures res.Ok? ==> Some(res.value.motDePasse) == u.motDePasse
      ensures res.Err? ==> res.error == PersistenceException && users == old(users) && nextId == old(nextId)
    {
      var f := u.Fields();
      if !UserInsertable(f) {
        return Err(PersistenceException);
      }
      if u.id.None? {
        if !KeysFree(users, f, nextId) {
          return Err(PersistenceException);
        }
        var row := NewUser(nextId, f, clock, clock);
        AppendUserKeepsKeys(users, nextId, row);
        users := users + [row];
        nextId := nextId + 1;
        return Ok(row);
      }
      var id := u.id.value;
      var stored := FindUser(users, id);
      if stored.None? || !KeysFree(users, f, id) {
        return Err(PersistenceException);
      }
      var row := NewUser(id, f, stored.value.dateCreation, clock);
      ReplaceUserKeepsKeys(users, nextId, row);
      users := ReplaceWhere(UserId(id), users, row);
      res := Ok(row);
    }

    /** changePassword(id, newPassword): false and no change for an unknown
        id; otherwise the row gets the hash of the new password, and nothing
        else of it changes but date_modification. */
    method ChangePassword(id: int, newPassword: string, salt: string) returns (changed: bool)
      requires Valid()
      modifies this`users
      ensures Valid()
      ensures changed <==> old(FindUser(users, id)).Some?
      ensures !changed ==> users == old(users)
      ensures changed ==> (
        var stored := old(FindUser(users, id)).value;
        var row := stored.(motDePasse := securityService.hashpw(newPassword, salt), dateModification := clock);
        && users == ReplaceWhere(UserId(id), old(users), row)
        && FindUser(users, id) == Some(row))
    {
      var u := FindById(id);
      if u == null {
        return false;
      }
      var stored := FindUser(users, id).value;
      SetMotDePasse(u, securityService.hashpw(newPassword, salt));
      RehashedRow(stored, securityService.hashpw(newPassword, salt), clock);
      var row := NewUser(id, u.Fields(), stored.dateCreation, clock);
      RehashKeepsKeys(users, nextId, stored, row);
      users := ReplaceWhere(UserId(id), users, row);
      changed := true;
    }

    /** delete(id): removes the user with that id; nothing when there is none. */
    method Delete(id: int)
      requires Valid()
      modifies this`users
      ensures Valid()
      ensures users == Filter(NotUserId(id), old(users))
      ensures old(FindUser(users, id)).None? ==> users == old(users)
      ensures FindUser(users, id).None?
      ensures forall v :: v in old(users) && v.id != id ==> v in users
    {
      var u := FindById(id);
      RemoveUserKeepsKeys(users, nextId, id);
      if u == null {
        FilterAll(NotUserId(id), users);
        return;
      }
      users := Filter(NotUserId(id), users);
    }
  }
}
