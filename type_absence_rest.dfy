/** TypeAbsenceResource: the /absences/types endpoints. Create and update copy
    the three fields of the request onto a bean, nulls included, and hand it
    to TypeAbsenceService; every exception becomes a 500 "Erreur serveur". */
module TypeAbsenceRest {
  import opened Common
  import opened AbsenceEntity
  import opened AbsenceStore

  /** TypeAbsenceDTO. */
  datatype TypeAbsenceDto = TypeAbsenceDto(
    id: Option<int>,
    nom: Option<string>,
    description: Option<string>,
    justificationRequise: Option<bool>)

  /** The data of a success response. */
  datatype Payload = Types(list: seq<TypeAbsenceDto>) | One(dto: TypeAbsenceDto)

  const TYPE_NOT_FOUND: string := "Type non trouvé"
  const NOM_REQUIRED: string := "Le nom est obligatoire"

  /** The three fields a request sets on the bean. */
  function RequestFields(dto: TypeAbsenceDto): (f: TypeFields)
    ensures f.nom == dto.nom && f.description == dto.description && f.justificationRequise == dto.justificationRequise
  {
    TypeFields(dto.nom, dto.description, dto.justificationRequise)
  }

  /** new TypeAbsenceDTO(type) of a stored row. */
  function RowDto(t: TypeRow): (d: TypeAbsenceDto)
    ensures d.id == Some(t.id) && RequestFields(d) == TypeFieldsOf(t)
  {
    TypeAbsenceDto(Some(t.id), Some(t.nom), t.description, t.justificationRequise)
  }

  /** The DTO of a row gives back everything but the creation time. */
  lemma RowDtoDeterminesRow(a: TypeRow, b: TypeRow)
    requires RowDto(a) == RowDto(b)
    ensures a == b.(dateCreation := a.dateCreation)
  {
    assert TypeFieldsOf(a) == RequestFields(RowDto(a)) == TypeFieldsOf(b);
  }

  function RowDtos(s: seq<TypeRow>): (r: seq<TypeAbsenceDto>)
    ensures |r| == |s|
    ensures forall i :: 0 <= i < |s| ==> r[i] == RowDto(s[i])
  {
    seq(|s|, i requires 0 <= i < |s| => RowDto(s[i]))
  }

  /** A type created from a request without justificationRequise stores NULL
      in that column (the request's null overrides the bean's default true),
      so none of its absences is ever listed as unjustified. */
  lemma UnflaggedTypeHidesAbsences(dto: TypeAbsenceDto, id: int, now: int, absences: seq<AbsenceRow>,
                                   types: seq<TypeRow>, a: AbsenceRow)
    requires dto.justificationRequise.None? && TypeInsertable(RequestFields(dto))
    requires FindType(types, a.typeAbsenceId) == Some(NewTypeRow(id, RequestFields(dto), now))
    ensures a !in FindNonJustifiees(absences, types)
  {
    NullFlagHidesAbsences(absences, types, a);
  }

  /** The setters create and update call: the request's three fields, taken as they are. */
  method SetFields(t: TypeAbsence, dto: TypeAbsenceDto)
    modifies t`nom, t`description, t`justificationRequise
    ensures t.Fields() == RequestFields(dto)
  {
    t.nom := dto.nom;
    t.description := dto.description;
    t.justificationRequise := dto.justificationRequise;
  }

  class TypeAbsenceResource {
    /** The injected TypeAbsenceService. */
    const service: TypeAbsenceService

    constructor (service: TypeAbsenceService)
      ensures this.service == service
    {
      this.service := service;
    }

    /** GET /absences/types: every type, by name. */
    method FindAll() returns (resp: Response<Payload>)
      ensures resp == Response(OK, Success("Types récupérés", Some(Types(RowDtos(FindAllTypes(service.db.types))))))
    {
      var found := FindAllTypes(service.db.types);
      resp := Response(OK, Success("Types récupérés", Some(Types(RowDtos(found)))));
    }

    /** GET /absences/types/{id} */
    method FindById(id: int) returns (resp: Response<Payload>)
      ensures FindType(service.db.types, id).None? ==> resp == Response(NOT_FOUND, Error(TYPE_NOT_FOUND))
      ensures FindType(service.db.types, id).Some? ==>
        resp == Response(OK, Success("Type trouvé", Some(One(RowDto(FindType(service.db.types, id).value)))))
    {
      var t := service.FindById(id);
      if t == null {
        return Response(NOT_FOUND, Error(TYPE_NOT_FOUND));
      }
      resp := Response(OK, Success("Type trouvé", Some(One(TypeAbsenceDto(t.id, t.nom, t.description, t.justificationRequise)))));
    }

    /** POST /absences/types: a null or blank name is a 400; otherwise the type
        is inserted, and a name over 50 characters or already taken is a 500. */
    method Create(dto: TypeAbsenceDto) returns (resp: Response<Payload>)
      requires service.db.Valid()
      modifies service.db`types, service.db`nextTypeId
      ensures service.db.Valid() && service.db.absences == old(service.db.absences)
      ensures NullOrBlank(dto.nom) ==> resp == Response(BAD_REQUEST, Error(NOM_REQUIRED)) && service.db.types == old(service.db.types)
      ensures !NullOrBlank(dto.nom) && !(TypeInsertable(RequestFields(dto)) && FindTypeByNom(old(service.db.types), dto.nom.value).None?) ==>
        resp == ServerError() && service.db.types == old(service.db.types)
      ensures !NullOrBlank(dto.nom) && TypeInsertable(RequestFields(dto)) && FindTypeByNom(old(service.db.types), dto.nom.value).None? ==> (
        var row := NewTypeRow(old(service.db.nextTypeId), RequestFields(dto), service.db.clock);
        && service.db.types == old(service.db.types) + [row]
        && resp == Response(CREATED, Success("Type créé", Some(One(RowDto(row))))))
    {
      if NullOrBlank(dto.nom) {
        return Response(BAD_REQUEST, Error(NOM_REQUIRED));
      }
      var t := new TypeAbsence();
      SetFields(t, dto);
      var res := service.Create(t);
      if res.Err? {
        return ServerError();
      }
      resp := Response(CREATED, Success("Type créé", Some(One(TypeAbsenceDto(t.id, t.nom, t.description, t.justificationRequise)))));
    }

    /** PUT /absences/types/{id}: 404 for an unknown id; otherwise the three
        fields are replaced, nulls included, and a constraint violation is a 500. */
    method Update(id: int, dto: TypeAbsenceDto) returns (resp: Response<Payload>)
      requires service.db.Valid()
      modifies service.db`types, service.db`nextTypeId
      ensures service.db.Valid() && service.db.absences == old(service.db.absences)
      ensures old(FindType(service.db.types, id)).None? ==>
        resp == Response(NOT_FOUND, Error(TYPE_NOT_FOUND)) && service.db.types == old(service.db.types)
      ensures old(FindType(service.db.types, id)).Some? && !(TypeInsertable(RequestFields(dto)) && NomFree(old(service.db.types), dto.nom.value, id)) ==>
        resp == ServerError() && service.db.types == old(service.db.types)
      ensures old(FindType(service.db.types, id)).Some? && TypeInsertable(RequestFields(dto)) && NomFree(old(service.db.types), dto.nom.value, id) ==> (
        var row := NewTypeRow(id, RequestFields(dto), old(FindType(service.db.types, id)).value.dateCreation);
        && service.db.types == ReplaceWhere(TypeId(id), old(service.db.types), row)
        && resp == Response(OK, Success("Type modifié", Some(One(RowDto(row))))))
    {
      var t := service.FindById(id);
      if t == null {
        return Response(NOT_FOUND, Error(TYPE_NOT_FOUND));
      }
      SetFields(t, dto);
      var res := service.Update(t);
      if res.Err? {
        return ServerError();
      }
      resp := Response(OK, Success("Type modifié", Some(One(RowDto(res.value)))));
    }

    /** DELETE /absences/types/{id}: 404 for an unknown id; a type some absence
        still refers to is refused by the foreign key, a 500. */
    method Delete(id: int) returns (resp: Response<Payload>)
      requires service.db.Valid()
      modifies service.db`types
      ensures service.db.Valid() && service.db.absences == old(service.db.absences)
      ensures old(FindType(service.db.types, id)).None? ==>
        resp == Response(NOT_FOUND, Error(TYPE_NOT_FOUND)) && service.db.types == old(service.db.types)
      ensures old(FindType(service.db.types, id)).Some? && InUse(service.db.absences, id) ==>
        resp == ServerError() && service.db.types == old(service.db.types)
      ensures old(FindType(service.db.types, id)).Some? && !InUse(service.db.absences, id) ==>
        resp == Response(OK, Success("Type supprimé", None))
        && service.db.types == Filter(NotTypeId(id), old(service.db.types)) && FindType(service.db.types, id).None?
    {
      var t := service.FindById(id);
      if t == null {
        return Response(NOT_FOUND, Error(TYPE_NOT_FOUND));
      }
      var thrown := service.Delete(id);
      if thrown.Some? {
        return ServerError();
      }
      resp := Response(OK, Success("Type supprimé", None));
    }
  }
}
