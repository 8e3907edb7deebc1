/** AbsenceResource: the /absences endpoints. Each endpoint is a cascade of
    checks choosing a status and an ApiResponse message; create and update
    fill an Absence bean field by field before handing it to AbsenceService.
    The caller's roles come from the request's security context, a predicate
    on role names here. */
module AbsenceRest {
  import opened Common
  import opened Dates
  import opened JmsProducer
  import opened AbsenceEntity
  import opened AbsenceStore

  /** AbsenceDTO: every column of the absence, and the id and name of its type. */
  datatype AbsenceDto = AbsenceDto(
    id: Option<int>,
    employeId: Option<int>,
    typeAbsenceId: Option<int>,
    typeAbsenceNom: Option<string>,
    dateAbsence: Option<LocalDate>,
    heureDebut: Option<int>,
    heureFin: Option<int>,
    dureeHeures: Option<int>,
    motif: Option<string>,
    justifiee: Option<bool>,
    documentJustificatif: Option<string>,
    enregistrePar: Option<int>,
    statut: Option<string>,
    dateCreation: Option<int>)

  /** The data of a success response. */
  datatype Payload = Absences(list: seq<AbsenceDto>) | One(dto: AbsenceDto)

  const ACCESS_DENIED: string := "Accès refusé : Droits Manager/Admin requis"
  const NOT_FOUND_MESSAGE: string := "Absence non trouvée"
  const PERIOD_REQUIRED: string := "Les paramètres debut et fin sont obligatoires"
  const BAD_DATE_FORMAT: string := "Format de date invalide (utiliser YYYY-MM-DD)"
  const DOCUMENT_REQUIRED: string := "Le chemin du document est obligatoire"
  /** BigDecimal.valueOf(8.0), in hundredths. */
  const DUREE_PAR_DEFAUT: int := 800

  /** The role gate of findAll, findByPeriode and findNonJustifiees. */
  predicate ManagerOrAdmin(inRole: string -> bool)
  {
    inRole("MANAGER") || inRole("ADMIN")
  }

  /** new AbsenceDTO(absence) of a bean with this id, these fields and this
      creation time; the type's name is read from the types table. */
  function BeanDto(id: Option<int>, f: AbsenceFields, dateCreation: Option<int>, types: seq<TypeRow>): (d: AbsenceDto)
    ensures d.id == id && d.dateCreation == dateCreation && d.typeAbsenceId == f.typeAbsenceId
    ensures FieldsOfDto(d) == f
    ensures f.typeAbsenceId.Some? && FindType(types, f.typeAbsenceId.value).Some? ==>
              d.typeAbsenceNom == Some(FindType(types, f.typeAbsenceId.value).value.nom)
  {
    var nom := if f.typeAbsenceId.Some? && FindType(types, f.typeAbsenceId.value).Some?
               then Some(FindType(types, f.typeAbsenceId.value).value.nom) else None;
    AbsenceDto(id, f.employeId, f.typeAbsenceId, nom, f.dateAbsence, f.heureDebut, f.heureFin, f.dureeHeures,
               f.motif, f.justifiee, f.documentJustificatif, f.enregistrePar, f.statut, dateCreation)
  }

  /** The absence fields a DTO carries. */
  function FieldsOfDto(d: AbsenceDto): AbsenceFields
  {
    AbsenceFields(d.employeId, d.typeAbsenceId, d.dateAbsence, d.heureDebut, d.heureFin, d.dureeHeures, d.motif,
                  d.statut, d.justifiee, d.documentJustificatif, d.enregistrePar)
  }

  /** new AbsenceDTO(absence) of a stored row. */
  function RowDto(a: AbsenceRow, types: seq<TypeRow>): (d: AbsenceDto)
  {
    BeanDto(Some(a.id), AbsenceFieldsOf(a), Some(a.dateCreation), types)
  }

  /** The DTO of a stored row determines the row: nothing of it is lost on the way out. */
  lemma RowDtoInjective(a: AbsenceRow, b: AbsenceRow, types: seq<TypeRow>)
    requires RowDto(a, types) == RowDto(b, types)
    ensures a == b
  {
    assert AbsenceFieldsOf(a) == FieldsOfDto(RowDto(a, types)) == AbsenceFieldsOf(b);
  }

  function RowDtos(s: seq<AbsenceRow>, types: seq<TypeRow>): (r: seq<AbsenceDto>)
    ensures |r| == |s|
    ensures forall i :: 0 <= i < |s| ==> r[i] == RowDto(s[i], types)
  {
    seq(|s|, i requires 0 <= i < |s| => RowDto(s[i], types))
  }

  // ---------------------------------------------------------------------------
  // create
  // ---------------------------------------------------------------------------

  /** The 400 message of create, checks in order: employee, type id, date, then
      that the type exists; None when the request passes. */
  function CreateRejection(dto: AbsenceDto, types: seq<TypeRow>): (r: Option<string>)
    ensures r.None? <==> (dto.employeId.Some? && dto.typeAbsenceId.Some? && dto.dateAbsence.Some?
                          && FindType(types, dto.typeAbsenceId.value).Some?)
    ensures dto.employeId.None? ==> r == Some("L'ID de l'employé est obligatoire")
    ensures dto.employeId.Some? && dto.typeAbsenceId.None? ==> r == Some("Le type d'absence est obligatoire")
    ensures dto.employeId.Some? && dto.typeAbsenceId.Some? && dto.dateAbsence.None? ==>
              r == Some("La date d'absence est obligatoire")
  {
    if dto.employeId.None? then Some("L'ID de l'employé est obligatoire")
    else if dto.typeAbsenceId.None? then Some("Le type d'absence est obligatoire")
    else if dto.dateAbsence.None? then Some("La date d'absence est obligatoire")
    else if FindType(types, dto.typeAbsenceId.value).None? then Some("Type d'absence invalide")
    else None
  }

  /** The bean create builds: the DTO's fields, with dureeHeures 8.00, justifiee
      false and statut "EN_ATTENTE" when absent. The document is not taken from
      the request, and the id and creation time are left to the database. */
  function Defaulted(dto: AbsenceDto): (f: AbsenceFields)
    ensures f.(dureeHeures := dto.dureeHeures, justifiee := dto.justifiee, statut := dto.statut,
               documentJustificatif := dto.documentJustificatif) == FieldsOfDto(dto)
    ensures f.dureeHeures == Some(ValueOr(dto.dureeHeures, DUREE_PAR_DEFAUT))
    ensures f.justifiee == Some(ValueOr(dto.justifiee, false))
    ensures f.statut == Some(ValueOr(dto.statut, EN_ATTENTE))
    ensures f.documentJustificatif.None?
  {
    AbsenceFields(dto.employeId, dto.typeAbsenceId, dto.dateAbsence, dto.heureDebut, dto.heureFin,
                  Some(ValueOr(dto.dureeHeures, DUREE_PAR_DEFAUT)), dto.motif,
                  Some(ValueOr(dto.statut, EN_ATTENTE)), Some(ValueOr(dto.justifiee, false)), None, dto.enregistrePar)
  }

  /** A request that passes validation is stored unless its statut overflows
      the 20-character column or its duration the numeric(4,2) column. */
  lemma AcceptedIsStoredUnlessOverflow(dto: AbsenceDto, types: seq<TypeRow>)
    requires CreateRejection(dto, types).None?
    ensures Persistable(Defaulted(dto), types) <==>
              (dto.statut.Some? ==> |dto.statut.value| <= STATUT_LENGTH)
              && (dto.dureeHeures.Some? ==> -DUREE_BOUND < dto.dureeHeures.value < DUREE_BOUND)
  {
  }

  // ---------------------------------------------------------------------------
  // update
  // ---------------------------------------------------------------------------

  /** The partial merge of update: each field the DTO carries overwrites the
      stored one, a type id counts only when that type exists, and employeId,
      statut, enregistrePar and the document are never taken from the DTO. */
  function Merge(a: AbsenceRow, dto: AbsenceDto, types: seq<TypeRow>): (m: AbsenceRow)
    ensures m.id == a.id && m.employeId == a.employeId && m.statut == a.statut && m.enregistrePar == a.enregistrePar
    ensures m.documentJustificatif == a.documentJustificatif && m.dateCreation == a.dateCreation
    ensures m.typeAbsenceId == a.typeAbsenceId || (dto.typeAbsenceId == Some(m.typeAbsenceId) && FindType(types, m.typeAbsenceId).Some?)
    ensures dto.dateAbsence.Some? ==> m.dateAbsence == dto.dateAbsence.value
    ensures dto.motif.Some? ==> m.motif == dto.motif
    ensures dto.justifiee.Some? ==> m.justifiee == dto.justifiee.value
  {
    var typeId := if dto.typeAbsenceId.Some? && FindType(types, dto.typeAbsenceId.value).Some?
                  then dto.typeAbsenceId.value else a.typeAbsenceId;
    a.(typeAbsenceId := typeId,
       dateAbsence := ValueOr(dto.dateAbsence, a.dateAbsence),
       heureDebut := OrElse(dto.heureDebut, a.heureDebut),
       heureFin := OrElse(dto.heureFin, a.heureFin),
       dureeHeures := OrElse(dto.dureeHeures, a.dureeHeures),
       motif := OrElse(dto.motif, a.motif),
       justifiee := ValueOr(dto.justifiee, a.justifiee))
  }

  /** Merge on the fields of a bean. */
  function MergeFields(f: AbsenceFields, dto: AbsenceDto, types: seq<TypeRow>): AbsenceFields
  {
    f.(typeAbsenceId := if dto.typeAbsenceId.Some? && FindType(types, dto.typeAbsenceId.value).Some?
                        then dto.typeAbsenceId else f.typeAbsenceId,
       dateAbsence := OrElse(dto.dateAbsence, f.dateAbsence),
       heureDebut := OrElse(dto.heureDebut, f.heureDebut),
       heureFin := OrElse(dto.heureFin, f.heureFin),
       dureeHeures := OrElse(dto.dureeHeures, f.dureeHeures),
       motif := OrElse(dto.motif, f.motif),
       justifiee := OrElse(dto.justifiee, f.justifiee))
  }

  /** What update hands to AbsenceService.update is the merged row: its fields
      are the merge of the stored fields, its type exists when the stored
      one does, and the row is rebuilt from them exactly. */
  lemma MergeStored(a: AbsenceRow, dto: AbsenceDto, types: seq<TypeRow>)
    requires FindType(types, a.typeAbsenceId).Some?
    ensures var m := Merge(a, dto, types);
      && AbsenceFieldsOf(m) == MergeFields(AbsenceFieldsOf(a), dto, types)
      && (Persistable(AbsenceFieldsOf(m), types) <==> AbsenceInsertable(AbsenceFieldsOf(m)))
      && (AbsenceInsertable(AbsenceFieldsOf(m)) ==> NewAbsenceRow(a.id, AbsenceFieldsOf(m), a.dateCreation) == m)
  {
    var m := Merge(a, dto, types);
    MergeFieldsOfRow(a, dto, types);
    MergeKeepsForeignKey(a, dto, types);
    if AbsenceInsertable(AbsenceFieldsOf(m)) {
      AbsenceRowRoundTrip(m);
    }
  }

  /** Merging a row and merging the bean that holds it agree. */
  lemma MergeFieldsOfRow(a: AbsenceRow, dto: AbsenceDto, types: seq<TypeRow>)
    ensures AbsenceFieldsOf(Merge(a, dto, types)) == MergeFields(AbsenceFieldsOf(a), dto, types)
  {
  }

  /** The empty DTO of update. */
  const NoChange: AbsenceDto := AbsenceDto(None, None, None, None, None, None, None, None, None, None, None, None, None, None)

  /** A DTO without fields changes nothing. */
  lemma MergeNothing(a: AbsenceRow, types: seq<TypeRow>)
    ensures Merge(a, NoChange, types) == a
  {
  }

  /** Sending the same update twice is the same as sending it once. */
  lemma MergeIdempotent(a: AbsenceRow, dto: AbsenceDto, types: seq<TypeRow>)
    ensures Merge(Merge(a, dto, types), dto, types) == Merge(a, dto, types)
  {
  }

  /** An update never points an absence at a missing type. */
  lemma MergeKeepsForeignKey(a: AbsenceRow, dto: AbsenceDto, types: seq<TypeRow>)
    requires FindType(types, a.typeAbsenceId).Some?
    ensures FindType(types, Merge(a, dto, types).typeAbsenceId).Some?
  {
  }

  /** The bean create fills from a validated request: the no-argument
      constructor, then one setter per field, with the defaults. */
  method NewBean(dto: AbsenceDto) returns (a: Absence)
    ensures fresh(a) && a.Fields() == Defaulted(dto) && a.id.None? && a.dateCreation.None?
  {
    a := new Absence();
    a.employeId := dto.employeId;
    a.typeAbsenceId := dto.typeAbsenceId;
    a.dateAbsence := dto.dateAbsence;
    a.heureDebut := dto.heureDebut;
    a.heureFin := dto.heureFin;
    a.dureeHeures := Some(ValueOr(dto.dureeHeures, DUREE_PAR_DEFAUT));
    a.motif := dto.motif;
    a.justifiee := Some(ValueOr(dto.justifiee, false));
    a.statut := Some(ValueOr(dto.statut, EN_ATTENTE));
    a.enregistrePar := dto.enregistrePar;
  }

  /** The setters update calls on the loaded bean, one per field the DTO
      carries; the new type is looked up first and ignored when missing. */
  method ApplyDto(a: Absence, dto: AbsenceDto, types: seq<TypeRow>)
    modifies a`typeAbsenceId, a`dateAbsence, a`heureDebut, a`heureFin, a`dureeHeures, a`motif, a`justifiee
    ensures a.Fields() == MergeFields(old(a.Fields()), dto, types)
  {
    // each setter runs only when the DTO carries the field; keeping the old
    // value otherwise is the same as not calling it
    var t := if dto.typeAbsenceId.Some? then FindType(types, dto.typeAbsenceId.value) else None;
    a.typeAbsenceId := if t.Some? then dto.typeAbsenceId else a.typeAbsenceId;
    a.dateAbsence := OrElse(dto.dateAbsence, a.dateAbsence);
    a.heureDebut := OrElse(dto.heureDebut, a.heureDebut);
    a.heureFin := OrElse(dto.heureFin, a.heureFin);
    a.dureeHeures := OrElse(dto.dureeHeures, a.dureeHeures);
    a.motif := OrElse(dto.motif, a.motif);
    a.justifiee := OrElse(dto.justifiee, a.justifiee);
  }

  class AbsenceResource {
    /** The injected AbsenceService; typeAbsenceService.findById reads the same types table. */
    const service: AbsenceService

    constructor (service: AbsenceService)
      ensures this.service == service
    {
      this.service := service;
    }

    /** GET /absences */
    method FindAll(inRole: string -> bool) returns (resp: Response<Payload>)
      ensures !ManagerOrAdmin(inRole) ==> resp == Response(FORBIDDEN, Error(ACCESS_DENIED))
      ensures ManagerOrAdmin(inRole) ==> resp == Response(OK, Success("Absences récupérées",
        Some(Absences(RowDtos(AbsenceStore.FindAll(service.db.absences), service.db.types)))))
    {
      if !ManagerOrAdmin(inRole) {
        return Response(FORBIDDEN, Error(ACCESS_DENIED));
      }
      var found := AbsenceStore.FindAll(service.db.absences);
      resp := Response(OK, Success("Absences récupérées", Some(Absences(RowDtos(found, service.db.types)))));
    }

    /** GET /absences/{id} */
    method FindById(id: int) returns (resp: Response<Payload>)
      ensures FindAbsence(service.db.absences, id).None? ==> resp == Response(NOT_FOUND, Error(NOT_FOUND_MESSAGE))
      ensures FindAbsence(service.db.absences, id).Some? ==>
        resp == Response(OK, Success("Absence trouvée", Some(One(RowDto(FindAbsence(service.db.absences, id).value, service.db.types)))))
    {
      var a := service.FindById(id);
      if a == null {
        return Response(NOT_FOUND, Error(NOT_FOUND_MESSAGE));
      }
      resp := Response(OK, Success("Absence trouvée", Some(One(BeanDto(a.id, a.Fields(), a.dateCreation, service.db.types)))));
    }

    /** GET /absences/employe/{employeId}: no role check. */
    method FindByEmploye(employeId: int) returns (resp: Response<Payload>)
      ensures resp == Response(OK, Success("Absences récupérées",
        Some(Absences(RowDtos(AbsenceStore.FindByEmploye(service.db.absences, employeId), service.db.types)))))
    {
      var found := AbsenceStore.FindByEmploye(service.db.absences, employeId);
      resp := Response(OK, Success("Absences récupérées", Some(Absences(RowDtos(found, service.db.types)))));
    }

    /** GET /absences/periode?debut=&fin=: the role first, then both parameters
        present, then both parse as YYYY-MM-DD. */
    method FindByPeriode(inRole: string -> bool, debut: Option<string>, fin: Option<string>) returns (resp: Response<Payload>)
      ensures !ManagerOrAdmin(inRole) ==> resp == Response(FORBIDDEN, Error(ACCESS_DENIED))
      ensures ManagerOrAdmin(inRole) && (debut.None? || fin.None?) ==> resp == Response(BAD_REQUEST, Error(PERIOD_REQUIRED))
      ensures ManagerOrAdmin(inRole) && debut.Some? && fin.Some?
              && (ParseIsoDate(debut.value).None? || ParseIsoDate(fin.value).None?) ==>
                resp == Response(BAD_REQUEST, Error(BAD_DATE_FORMAT))
      ensures resp.status == OK <==> (ManagerOrAdmin(inRole) && debut.Some? && fin.Some?
                                      && ParseIsoDate(debut.value).Some? && ParseIsoDate(fin.value).Some?)
      ensures resp.status == OK ==> resp == Response(OK, Success("Absences récupérées",
        Some(Absences(RowDtos(AbsenceStore.FindByPeriode(service.db.absences, ParseIsoDate(debut.value).value, ParseIsoDate(fin.value).value),
                              service.db.types)))))
    {
      if !ManagerOrAdmin(inRole) {
        return Response(FORBIDDEN, Error(ACCESS_DENIED));
      }
      if debut.None? || fin.None? {
        return Response(BAD_REQUEST, Error(PERIOD_REQUIRED));
      }
      var d := ParseIsoDate(debut.value);
      var f := ParseIsoDate(fin.value);
      if d.None? || f.None? {
        return Response(BAD_REQUEST, Error(BAD_DATE_FORMAT));
      }
      var found := AbsenceStore.FindByPeriode(service.db.absences, d.value, f.value);
      resp := Response(OK, Success("Absences récupérées", Some(Absences(RowDtos(found, service.db.types)))));
    }

    /** GET /absences/non-justifiees */
    method FindNonJustifiees(inRole: string -> bool) returns (resp: Response<Payload>)
      ensures !ManagerOrAdmin(inRole) ==> resp == Response(FORBIDDEN, Error(ACCESS_DENIED))
      ensures ManagerOrAdmin(inRole) ==> resp == Response(OK, Success("Absences non justifiées",
        Some(Absences(RowDtos(AbsenceStore.FindNonJustifiees(service.db.absences, service.db.types), service.db.types)))))
    {
      if !ManagerOrAdmin(inRole) {
        return Response(FORBIDDEN, Error(ACCESS_DENIED));
      }
      var found := AbsenceStore.FindNonJustifiees(service.db.absences, service.db.types);
      resp := Response(OK, Success("Absences non justifiées", Some(Absences(RowDtos(found, service.db.types)))));
    }

    /** POST /absences: validation, then a new bean with the defaults, then
        AbsenceService.create (which also notifies the employee). Any exception
        becomes a 500 whose message ends with the exception's own message,
        which detail stands for. An unchecked exception of the send is caught
        inside create, so the answer is 201 even though the rollback of
        create's transaction leaves the absence unstored. */
    method Create(dto: AbsenceDto, env: JmsEnv, detail: Exception -> string) returns (resp: Response<Payload>)
      requires service.db.Valid()
      modifies service.db`absences, service.db`nextAbsenceId, service.producer.broker
      ensures service.db.Valid() && service.db.types == old(service.db.types)
      ensures CreateRejection(dto, service.db.types).Some? ==> (
        resp == Response(BAD_REQUEST, Error(CreateRejection(dto, service.db.types).value))
        && service.db.absences == old(service.db.absences) && service.producer.broker.queue == old(service.producer.broker.queue))
      ensures CreateRejection(dto, service.db.types).None? && !Persistable(Defaulted(dto), service.db.types) ==> (
        resp == Response(INTERNAL_SERVER_ERROR, Error("Erreur serveur : " + detail(PersistenceException)))
        && service.db.absences == old(service.db.absences) && service.producer.broker.queue == old(service.producer.broker.queue))
      ensures CreateRejection(dto, service.db.types).None? && Persistable(Defaulted(dto), service.db.types) ==> (
        var row := NewAbsenceRow(old(service.db.nextAbsenceId), Defaulted(dto), service.db.clock);
        && service.db.absences == old(service.db.absences) + (if Escapes(env).None? then [row] else [])
        && resp == Response(CREATED, Success("Absence créée avec succès", Some(One(RowDto(row, service.db.types)))))
        && service.producer.broker.queue == old(service.producer.broker.queue) + Sent(env, CreationNotice(row, service.db.types)))
    {
      var rejection := CreateRejection(dto, service.db.types);
      if rejection.Some? {
        return Response(BAD_REQUEST, Error(rejection.value));
      }
      var a := NewBean(dto);
      var res := service.Create(a, env);
      if res.Err? {
        return Response(INTERNAL_SERVER_ERROR, Error("Erreur serveur : " + detail(res.error)));
      }
      resp := Response(CREATED, Success("Absence créée avec succès", Some(One(BeanDto(a.id, a.Fields(), a.dateCreation, service.db.types)))));
    }

    /** PUT /absences/{id}: 404 for an unknown id; otherwise the stored bean is
        merged with the DTO and saved; a constraint violation is a 500. */
    method Update(id: int, dto: AbsenceDto) returns (resp: Response<Payload>)
      requires service.db.Valid()
      modifies service.db`absences, service.db`nextAbsenceId
      ensures service.db.Valid() && service.db.types == old(service.db.types)
      ensures old(FindAbsence(service.db.absences, id)).None? ==> (
        resp == Response(NOT_FOUND, Error(NOT_FOUND_MESSAGE)) && service.db.absences == old(service.db.absences))
      ensures old(FindAbsence(service.db.absences, id)).Some? ==> (
        var m := Merge(old(FindAbsence(service.db.absences, id)).value, dto, service.db.types);
        && (AbsenceInsertable(AbsenceFieldsOf(m)) ==> (
              resp == Response(OK, Success("Absence modifiée", Some(One(RowDto(m, service.db.types)))))
              && service.db.absences == ReplaceWhere(AbsenceId(id), old(service.db.absences), m)
              && FindAbsence(service.db.absences, id) == Some(m)))
        && (!AbsenceInsertable(AbsenceFieldsOf(m)) ==> (
              resp == ServerError() && service.db.absences == old(service.db.absences))))
    {
      var a := service.FindById(id);
      if a == null {
        return Response(NOT_FOUND, Error(NOT_FOUND_MESSAGE));
      }
      ghost var stored := FindAbsence(service.db.absences, id).value;
      ghost var m := Merge(stored, dto, service.db.types);
      StoredHasType(service.db.absences, service.db.types, stored);
      MergeStored(stored, dto, service.db.types);
      ApplyDto(a, dto, service.db.types);
      assert a.Fields() == AbsenceFieldsOf(m) && a.id == Some(id);
      var res := service.Update(a);
      if res.Err? {
        return ServerError();
      }
      assert res.value == m;
      resp := Response(OK, Success("Absence modifiée", Some(One(RowDto(res.value, service.db.types)))));
    }

    /** PUT /absences/{id}/justifier: a null or blank path is refused before any lookup. */
    method Justifier(id: int, documentPath: Option<string>) returns (resp: Response<Payload>)
      requires service.db.Valid()
      modifies service.db`absences, service.db`nextAbsenceId
      ensures service.db.Valid()
      ensures NullOrBlank(documentPath) ==> (
        resp == Response(BAD_REQUEST, Error(DOCUMENT_REQUIRED)) && service.db.absences == old(service.db.absences))
      ensures !NullOrBlank(documentPath) && old(FindAbsence(service.db.absences, id)).None? ==> (
        resp == Response(NOT_FOUND, Error(NOT_FOUND_MESSAGE)) && service.db.absences == old(service.db.absences))
      ensures !NullOrBlank(documentPath) && old(FindAbsence(service.db.absences, id)).Some? ==> (
        var j := Justify(old(FindAbsence(service.db.absences, id)).value, documentPath);
        && (AbsenceInsertable(AbsenceFieldsOf(j)) ==> (
              resp == Response(OK, Success("Absence justifiée", Some(One(RowDto(j, service.db.types)))))
              && service.db.absences == ReplaceWhere(AbsenceId(id), old(service.db.absences), j)))
        && (!AbsenceInsertable(AbsenceFieldsOf(j)) ==> (
              resp == ServerError() && service.db.absences == old(service.db.absences))))
    {
      if NullOrBlank(documentPath) {
        return Response(BAD_REQUEST, Error(DOCUMENT_REQUIRED));
      }
      var res := service.Justifier(id, documentPath);
      if res.Err? {
        return ServerError();
      }
      if res.value.None? {
        return Response(NOT_FOUND, Error(NOT_FOUND_MESSAGE));
      }
      resp := Response(OK, Success("Absence justifiée", Some(One(RowDto(res.value.value, service.db.types)))));
    }

    /** DELETE /absences/{id} */
    method Delete(id: int) returns (resp: Response<Payload>)
      requires service.db.Valid()
      modifies service.db`absences
      ensures service.db.Valid()
      ensures old(FindAbsence(service.db.absences, id)).None? ==> (
        resp == Response(NOT_FOUND, Error(NOT_FOUND_MESSAGE)) && service.db.absences == old(service.db.absences))
      ensures old(FindAbsence(service.db.absences, id)).Some? ==> (
        resp == Response(OK, Success("Absence supprimée", None))
        && service.db.absences == Filter(NotAbsenceId(id), old(service.db.absences))
        && FindAbsence(service.db.absences, id).None?)
    {
      var a := service.FindById(id);
      if a == null {
        return Response(NOT_FOUND, Error(NOT_FOUND_MESSAGE));
      }
      service.Delete(id);
      resp := Response(OK, Success("Absence supprimée", None));
    }
  }
}
