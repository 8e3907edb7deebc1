/** NotificationResource: the /notifications endpoints over the notification
    service, with the NotificationDTO they return inside the ApiResponse
    envelope. Every endpoint catches any exception as a 500 "Erreur serveur". */
module NotificationRest {
  import opened Common
  import opened NotificationEntity
  import opened NotificationStore

  /** NotificationDTO: the seven content fields, the state, and recente = estRecente(). */
  datatype NotificationDto = NotificationDto(
    id: Option<int>,
    content: Content,
    lue: bool,
    dateEnvoi: Option<int>,
    dateLecture: Option<int>,
    recente: bool)

  /** The data of an ApiResponse.success. */
  datatype Payload =
    | Dtos(list: seq<NotificationDto>)
    | One(dto: NotificationDto)
    | Number(n: int)
    | Stats(stats: Statistiques)

  const USER_ID_REQUIRED: string := "Le paramètre userId est obligatoire"
  const NOT_FOUND_MESSAGE: string := "Notification non trouvée"

  /** new NotificationDTO(notification) of a stored row. */
  function ToDto(r: NotificationRow, now: int): (d: NotificationDto)
    ensures d.id == Some(r.id) && d.content == RowContent(r) && d.lue == r.lue
    ensures d.dateEnvoi == Some(r.dateEnvoi) && d.dateLecture == r.dateLecture
    ensures d.recente <==> now - r.dateEnvoi < DAY
  {
    NotificationDto(Some(r.id), RowContent(r), r.lue, Some(r.dateEnvoi), r.dateLecture, EstRecente(Some(r.dateEnvoi), now))
  }

  /** new NotificationDTO(notification) of a bean. */
  function BeanDto(n: Notification, now: int): (d: NotificationDto)
    reads n
    ensures d.id == n.id && d.content == n.Fields() && d.lue == n.lue
    ensures d.dateEnvoi.None? ==> !d.recente
  {
    NotificationDto(n.id, n.Fields(), n.lue, n.dateEnvoi, n.dateLecture, EstRecente(n.dateEnvoi, now))
  }

  /** The row a DTO shows, when it shows a complete one. */
  function FromDto(d: NotificationDto): (r: Option<NotificationRow>)
    ensures r.Some? ==> d.id == Some(r.value.id) && d.content == RowContent(r.value) && d.lue == r.value.lue
  {
    var c := d.content;
    if d.id.Some? && d.dateEnvoi.Some? && c.destinataireId.Some? && c.typ.Some? && c.sujet.Some? && c.message.Some? then
      Some(NotificationRow(d.id.value, c.destinataireId.value, c.expediteurId, c.typ.value, c.sujet.value, c.message.value,
                           c.referenceId, c.typeReference, d.lue, d.dateEnvoi.value, d.dateLecture))
    else None
  }

  /** A DTO loses nothing of the row: the row can be read back from it. */
  lemma DtoRoundTrip(r: NotificationRow, now: int)
    ensures FromDto(ToDto(r, now)) == Some(r)
  {
  }

  /** stream().map(NotificationDTO::new) */
  function MapDtos(s: seq<NotificationRow>, now: int): (r: seq<NotificationDto>)
    ensures |r| == |s|
    ensures forall i :: 0 <= i < |s| ==> r[i] == ToDto(s[i], now)
  {
    seq(|s|, i requires 0 <= i < |s| => ToDto(s[i], now))
  }

  /** The content create() hands to creerNotification: the reference is not passed. */
  function Submitted(body: Content): (c: Content)
    ensures c.referenceId.None? && c.typeReference.None?
    ensures c.(referenceId := body.referenceId, typeReference := body.typeReference) == body
  {
    body.(referenceId := None, typeReference := None)
  }

  /** The validation of create(), first failing check first. */
  function CreateRejection(body: Content): (r: Option<string>)
    ensures r.None? <==> body.destinataireId.Some? && !NullOrBlank(body.typ) && !NullOrBlank(body.sujet) && !NullOrBlank(body.message)
    ensures body.destinataireId.None? ==> r == Some("Le destinataire est obligatoire")
  {
    if body.destinataireId.None? then Some("Le destinataire est obligatoire")
    else if NullOrBlank(body.typ) then Some("Le type est obligatoire")
    else if NullOrBlank(body.sujet) then Some("Le sujet est obligatoire")
    else if NullOrBlank(body.message) then Some("Le message est obligatoire")
    else None
  }

  /** A body that passes validation is stored unless its type overflows the
      50-character column or its subject the 255-character one; blank subject
      or message text is refused before the database sees it. */
  lemma AcceptedIsStoredUnlessTooLong(body: Content)
    requires CreateRejection(body).None?
    ensures Insertable(Submitted(body)) <==> |body.typ.value| <= CODE_LENGTH && |body.sujet.value| <= SUJET_LENGTH
  {
  }

  /** The DTO the 201 response carries: the bean just created, with the body's
      reference copied onto it after the insert. */
  function CreatedDto(id: int, body: Content, now: int): (d: NotificationDto)
    ensures d.id == Some(id) && d.content == body && !d.lue && d.recente
  {
    NotificationDto(Some(id), body, false, Some(now), None, EstRecente(Some(now), now))
  }

  /** The reference setters create() runs after the insert, each only when
      the body carries that field. */
  method CopyReference(n: Notification, body: Content)
    modifies n`referenceId, n`typeReference
    ensures n.referenceId == if body.referenceId.Some? then body.referenceId else old(n.referenceId)
    ensures n.typeReference == if body.typeReference.Some? then body.typeReference else old(n.typeReference)
  {
    n.referenceId := if body.referenceId.Some? then body.referenceId else n.referenceId;
    n.typeReference := if body.typeReference.Some? then body.typeReference else n.typeReference;
  }

  class NotificationResource {
    /** The injected NotificationService. */
    const service: NotificationService

    constructor (service: NotificationService)
      ensures this.service == service
    {
      this.service := service;
    }

    /** GET /notifications?userId= : the recipient's notifications, newest first. */
    method FindByDestinataire(userId: Option<int>) returns (resp: Response<Payload>)
      ensures userId.None? ==> resp == Response(BAD_REQUEST, Error(USER_ID_REQUIRED))
      ensures userId.Some? ==> resp == Response(OK, Success("Notifications récupérées",
        Some(Dtos(MapDtos(NotificationStore.FindByDestinataire(service.rows, userId.value), service.clock)))))
    {
      if userId.None? {
        return Response(BAD_REQUEST, Error(USER_ID_REQUIRED));
      }
      var found := NotificationStore.FindByDestinataire(service.rows, userId.value);
      resp := Response(OK, Success("Notifications récupérées", Some(Dtos(MapDtos(found, service.clock)))));
    }

    /** GET /notifications/non-lues?userId= */
    method FindNonLues(userId: Option<int>) returns (resp: Response<Payload>)
      ensures userId.None? ==> resp == Response(BAD_REQUEST, Error(USER_ID_REQUIRED))
      ensures userId.Some? ==> resp == Response(OK, Success("Notifications non lues",
        Some(Dtos(MapDtos(NotificationStore.FindNonLues(service.rows, userId.value), service.clock)))))
    {
      if userId.None? {
        return Response(BAD_REQUEST, Error(USER_ID_REQUIRED));
      }
      var found := NotificationStore.FindNonLues(service.rows, userId.value);
      resp := Response(OK, Success("Notifications non lues", Some(Dtos(MapDtos(found, service.clock)))));
    }

    /** GET /notifications/count-non-lues?userId= : the count is the length of the unread list. */
    method CountNonLues(userId: Option<int>) returns (resp: Response<Payload>)
      ensures userId.None? ==> resp == Response(BAD_REQUEST, Error(USER_ID_REQUIRED))
      ensures userId.Some? ==> resp == Response(OK, Success("Nombre de notifications non lues",
        Some(Number(|NotificationStore.FindNonLues(service.rows, userId.value)|))))
    {
      if userId.None? {
        return Response(BAD_REQUEST, Error(USER_ID_REQUIRED));
      }
      CountNonLuesIsListLength(service.rows, userId.value);
      resp := Response(OK, Success("Nombre de notifications non lues",
        Some(Number(NotificationStore.CountNonLues(service.rows, userId.value)))));
    }

    /** GET /notifications/{id} */
    method FindById(id: int) returns (resp: Response<Payload>)
      ensures NotificationStore.FindById(service.rows, id).None? ==> resp == Response(NOT_FOUND, Error(NOT_FOUND_MESSAGE))
      ensures NotificationStore.FindById(service.rows, id).Some? ==> (resp.status == OK && resp.body.Success?
        && resp.body.data == Some(One(ToDto(NotificationStore.FindById(service.rows, id).value, service.clock)))
        && resp.body.data.value.dto.id == Some(id))
    {
      var found := NotificationStore.FindById(service.rows, id);
      if found.None? {
        return Response(NOT_FOUND, Error(NOT_FOUND_MESSAGE));
      }
      resp := Response(OK, Success("Notification trouvée", Some(One(ToDto(found.value, service.clock)))));
    }

    /** POST /notifications: validates, creates, then copies the reference onto
        the returned bean. The copy happens after the service transaction has
        ended, so it reaches the response and not the stored row. */
    method Create(body: Content) returns (resp: Response<Payload>)
      requires service.Valid()
      modifies service`rows, service`nextId
      ensures service.Valid() && service.clock == old(service.clock)
      ensures CreateRejection(body).Some? ==> (resp == Response(BAD_REQUEST, Error(CreateRejection(body).value))
        && service.rows == old(service.rows))
      ensures CreateRejection(body).None? && !Insertable(Submitted(body)) ==> (resp == ServerError()
        && service.rows == old(service.rows))
      ensures CreateRejection(body).None? && Insertable(Submitted(body)) ==> (
        && service.rows == old(service.rows) + [NewRow(old(service.nextId), Submitted(body), false, service.clock, None)]
        && resp == Response(CREATED, Success("Notification créée", Some(One(CreatedDto(old(service.nextId), body, service.clock))))))
    {
      var rejection := CreateRejection(body);
      if rejection.Some? {
        return Response(BAD_REQUEST, Error(rejection.value));
      }
      resp := CreateValidated(body);
    }

    /** The part of create() after validation. */
    method CreateValidated(body: Content) returns (resp: Response<Payload>)
      requires service.Valid()
      modifies service`rows, service`nextId
      ensures service.Valid() && service.clock == old(service.clock)
      ensures !Insertable(Submitted(body)) ==> resp == ServerError() && service.rows == old(service.rows)
      ensures Insertable(Submitted(body)) ==> (
        && service.rows == old(service.rows) + [NewRow(old(service.nextId), Submitted(body), false, service.clock, None)]
        && resp == Response(CREATED, Success("Notification créée", Some(One(CreatedDto(old(service.nextId), body, service.clock))))))
    {
      var res := service.CreerNotification(body.destinataireId, body.expediteurId, body.typ, body.sujet, body.message);
      if res.Err? {
        return ServerError();
      }
      var n := res.value;
      CopyReference(n, body);
      assert n.Fields() == body;
      resp := Response(CREATED, Success("Notification créée", Some(One(BeanDto(n, service.clock)))));
    }

    /** PUT /notifications/{id}/lire */
    method MarquerCommeLue(id: int) returns (resp: Response<Payload>)
      requires service.Valid()
      modifies service`rows
      ensures service.Valid()
      ensures service.rows == MarkOne(old(service.rows), id, service.clock)
      ensures old(NotificationStore.FindById(service.rows, id)).None? ==> resp == Response(NOT_FOUND, Error(NOT_FOUND_MESSAGE))
      ensures old(NotificationStore.FindById(service.rows, id)).Some? ==> (resp.status == OK
        && resp == Response(OK, Success("Notification marquée comme lue", Some(One(ToDto(NotificationStore.FindById(service.rows, id).value, service.clock)))))
        && resp.body.data.value.dto.lue)
    {
      var r := service.MarquerCommeLue(id);
      if r.None? {
        return Response(NOT_FOUND, Error(NOT_FOUND_MESSAGE));
      }
      resp := Response(OK, Success("Notification marquée comme lue", Some(One(ToDto(r.value, service.clock)))));
    }

    /** PUT /notifications/tout-lire?userId= */
    method MarquerToutesCommeLues(userId: Option<int>) returns (resp: Response<Payload>)
      requires service.Valid()
      modifies service`rows
      ensures service.Valid()
      ensures userId.None? ==> resp == Response(BAD_REQUEST, Error(USER_ID_REQUIRED)) && service.rows == old(service.rows)
      ensures userId.Some? ==> (service.rows == MarkAllRead(old(service.rows), userId.value, service.clock)
        && var count := old(NotificationStore.CountNonLues(service.rows, userId.value));
           resp == Response(OK, Success(IntToString(count) + " notification(s) marquée(s) comme lue(s)", Some(Number(count)))))
    {
      if userId.None? {
        return Response(BAD_REQUEST, Error(USER_ID_REQUIRED));
      }
      var count := service.MarquerToutesCommeLues(userId.value);
      resp := Response(OK, Success(IntToString(count) + " notification(s) marquée(s) comme lue(s)", Some(Number(count))));
    }

    /** DELETE /notifications/{id} */
    method Delete(id: int) returns (resp: Response<Payload>)
      requires service.Valid()
      modifies service`rows
      ensures service.Valid()
      ensures service.rows == Filter(NotId(id), old(service.rows))
      ensures old(NotificationStore.FindById(service.rows, id)).None? ==> resp == Response(NOT_FOUND, Error(NOT_FOUND_MESSAGE))
      ensures old(NotificationStore.FindById(service.rows, id)).Some? ==> resp == Response(OK, Success("Notification supprimée", None))
    {
      var deleted := service.Delete(id);
      if !deleted {
        return Response(NOT_FOUND, Error(NOT_FOUND_MESSAGE));
      }
      resp := Response(OK, Success("Notification supprimée", None));
    }

    /** GET /notifications/statistiques?userId= */
    method GetStatistiques(userId: Option<int>) returns (resp: Response<Payload>)
      ensures userId.None? ==> resp == Response(BAD_REQUEST, Error(USER_ID_REQUIRED))
      ensures userId.Some? ==> (resp.status == OK && resp.body.Success? && resp.body.data.Some?
        && resp.body.data.value.Stats?
        && var s := resp.body.data.value.stats;
           s == NotificationStore.GetStatistiques(service.rows, userId.value)
           && s.total == |NotificationStore.FindByDestinataire(service.rows, userId.value)|
           && s.nonLues == |NotificationStore.FindNonLues(service.rows, userId.value)|
           && s.lues == s.total - s.nonLues)
    {
      if userId.None? {
        return Response(BAD_REQUEST, Error(USER_ID_REQUIRED));
      }
      var stats := NotificationStore.GetStatistiques(service.rows, userId.value);
      resp := Response(OK, Success("Statistiques", Some(Stats(stats))));
    }
  }
}
