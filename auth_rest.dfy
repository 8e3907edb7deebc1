/** UtilisateurResource: the /utilisateurs endpoints. Users leave the service
    as UserResponse, which never carries the password hash. The resource
    catches nothing: an exception from the service becomes the container's
    bare 500. */
module AuthRest {
  import opened Common
  import opened AuthSecurity
  import opened AuthUsers

  /** UserResponse: a user without its password and modification time. */
  datatype UserResponse = UserResponse(
    id: Option<int>,
    nomUtilisateur: Option<string>,
    email: Option<string>,
    role: Option<string>,
    actif: bool,
    dateCreation: Option<int>)

  /** The entity of a 200 or 201 response. */
  datatype Payload = Users(list: seq<UserResponse>) | One(user: UserResponse)

  const PASSWORD_CHANGED: string := "Mot de passe mis à jour"

  /** The container's answer to an exception thrown by the service. */
  function Failure(): (r: Response<Payload>)
    ensures r.status == INTERNAL_SERVER_ERROR && r.body.Empty?
  {
    Response(INTERNAL_SERVER_ERROR, Empty)
  }

  /** new UserResponse(u) of a bean. */
  function BeanResponse(u: Utilisateur): (r: UserResponse)
    reads u
    ensures r.id == u.id && r.dateCreation == u.dateCreation
    ensures r.nomUtilisateur == u.nomUtilisateur && r.email == u.email && r.role == u.role && r.actif == u.actif
  {
    UserResponse(u.id, u.nomUtilisateur, u.email, u.role, u.actif, u.dateCreation)
  }

  /** new UserResponse(u) of a stored user. */
  function RowResponse(u: User): (r: UserResponse)
    ensures r.id == Some(u.id) && r.dateCreation == Some(u.dateCreation) && r.actif == u.actif
    ensures r.nomUtilisateur == Some(u.nomUtilisateur) && r.email == Some(u.email) && r.role == Some(u.role)
  {
    UserResponse(Some(u.id), Some(u.nomUtilisateur), Some(u.email), Some(u.role), u.actif, Some(u.dateCreation))
  }

  /** The response of a user gives back everything but the password hash and
      the modification time: two users differing only there look the same. */
  lemma RowResponseHidesPassword(a: User, b: User)
    ensures RowResponse(a) == RowResponse(b) <==>
      a == b.(motDePasse := a.motDePasse, dateModification := a.dateModification)
  {
    if RowResponse(a) == RowResponse(b) {
      assert Some(a.id) == RowResponse(b).id;
    }
  }

  function RowResponses(s: seq<User>): (r: seq<UserResponse>)
    ensures |r| == |s|
    ensures forall i :: 0 <= i < |s| ==> r[i] == RowResponse(s[i])
  {
    seq(|s|, i requires 0 <= i < |s| => RowResponse(s[i]))
  }

  /** What the bean sent to update holds once the resource has set its id and
      put back the stored password. */
  function UpdatedFields(f: UserFields, existing: User): (g: UserFields)
    ensures g.motDePasse == Some(existing.motDePasse)
    ensures g.nomUtilisateur == f.nomUtilisateur && g.email == f.email && g.role == f.role && g.actif == f.actif
  {
    f.(motDePasse := Some(existing.motDePasse))
  }

  class UtilisateurResource {
    /** The injected UtilisateurService. */
    const service: UtilisateurService

    constructor (service: UtilisateurService)
      ensures this.service == service
    {
      this.service := service;
    }

    /** GET /utilisateurs: every user, in table order. */
    method GetAll() returns (resp: Response<Payload>)
      ensures resp == Response(OK, Entity(Users(RowResponses(service.users))))
    {
      resp := Response(OK, Entity(Users(RowResponses(service.users))));
    }

    /** POST /utilisateurs: the user is created with its password hashed; the
        response shows the new row, without its hash. */
    method Create(u: Utilisateur, salt: string) returns (resp: Response<Payload>)
      requires service.Valid()
      modifies service`users, service`nextId, u`motDePasse, u`id, u`dateCreation, u`dateModification
      ensures service.Valid()
      ensures var ok := old(u.motDePasse).Some? && old(u.id).None? && UserInsertable(u.Fields())
                        && KeysFree(old(service.users), u.Fields(), old(service.nextId));
        && (ok ==> (
          var row := NewUser(old(service.nextId), u.Fields(), service.clock, service.clock);
          && service.users == old(service.users) + [row]
          && row.motDePasse == service.securityService.hashpw(old(u.motDePasse).value, salt)
          && resp == Response(CREATED, Entity(One(RowResponse(row))))))
        && (!ok ==> resp == Failure() && service.users == old(service.users))
      ensures u.Fields() == old(u.Fields()).(motDePasse := u.motDePasse)
    {
      var created := service.Create(u, salt);
      if created.Err? {
        return Failure();
      }
      resp := Response(CREATED, Entity(One(BeanResponse(created.value))));
    }

    /** GET /utilisateurs/{id}: the user, or a bare 404. */
    method GetById(id: int) returns (resp: Response<Payload>)
      ensures FindUser(service.users, id).None? ==> resp == Response(NOT_FOUND, Empty)
      ensures FindUser(service.users, id).Some? ==>
        resp == Response(OK, Entity(One(RowResponse(FindUser(service.users, id).value))))
    {
      var u := service.FindById(id);
      if u == null {
        return Response(NOT_FOUND, Empty);
      }
      resp := Response(OK, Entity(One(BeanResponse(u))));
    }

    /** PUT /utilisateurs/{id}: a bare 404 for an unknown id; otherwise the
        request overwrites the row under that id with the stored password put
        back. The response echoes the request's dateCreation, which the merged
        copy holds although the column is not updatable. */
    method Update(id: int, u: Utilisateur) returns (resp: Response<Payload>)
      requires service.Valid()
      modifies service`users, service`nextId, u`id, u`motDePasse
      ensures service.Valid()
      ensures old(FindUser(service.users, id)).None? ==>
        resp == Response(NOT_FOUND, Empty) && service.users == old(service.users)
      ensures old(FindUser(service.users, id)).Some? ==> (
        var existing := old(FindUser(service.users, id)).value;
        var f := UpdatedFields(old(u.Fields()), existing);
        && (UserInsertable(f) && KeysFree(old(service.users), f, id) ==> (
          var row := NewUser(id, f, existing.dateCreation, service.clock);
          && service.users == ReplaceWhere(UserId(id), old(service.users), row)
          && FindUser(service.users, id) == Some(row)
          && row.motDePasse == existing.motDePasse && row.dateCreation == existing.dateCreation
          && resp == Response(OK, Entity(One(UserResponse(Some(id), f.nomUtilisateur, f.email, f.role, f.actif, old(u.dateCreation)))))))
        && (!(UserInsertable(f) && KeysFree(old(service.users), f, id)) ==>
          resp == Failure() && service.users == old(service.users)))
    {
      var existing := service.FindById(id);
      if existing == null {
        return Response(NOT_FOUND, Empty);
      }
      u.id := Some(id);
      u.motDePasse := existing.motDePasse;
      var updated := service.Update(u);
      if updated.Err? {
        return Failure();
      }
      resp := Response(OK, Entity(One(BeanResponse(u))));
    }

    /** DELETE /utilisateurs/{id}: always a 204, whether or not the user existed. */
    method Delete(id: int) returns (resp: Response<Payload>)
      requires service.Valid()
      modifies service`users
      ensures service.Valid()
      ensures resp == Response(NO_CONTENT, Empty)
      ensures service.users == Filter(NotUserId(id), old(service.users)) && FindUser(service.users, id).None?
    {
      service.Delete(id);
      resp := Response(NO_CONTENT, Empty);
    }

    /** PUT /utilisateurs/{id}/password: the row gets the hash of the body. */
    method ChangePassword(id: int, newPassword: string, salt: string) returns (resp: Response<Payload>)
      requires service.Valid()
      modifies service`users
      ensures service.Valid()
      ensures old(FindUser(service.users, id)).None? ==>
        resp == Response(NOT_FOUND, Empty) && service.users == old(service.users)
      ensures old(FindUser(service.users, id)).Some? ==> (
        var row := old(FindUser(service.users, id)).value.(
          motDePasse := service.securityService.hashpw(newPassword, salt), dateModification := service.clock);
        && resp == Response(OK, Text(PASSWORD_CHANGED))
        && service.users == ReplaceWhere(UserId(id), old(service.users), row))
    {
      var changed := service.ChangePassword(id, newPassword, salt);
      if changed {
        return Response(OK, Text(PASSWORD_CHANGED));
      }
      resp := Response(NOT_FOUND, Empty);
    }
  }
}
