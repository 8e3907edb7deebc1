/** The Notification JPA entity: the row of the notifications table, the
    managed bean the services fill through its setters, its lifecycle
    callbacks, and the row predicates of its named queries. Time is a count of
    seconds; the read flag is a two-state machine (unread, then read). */
module NotificationEntity {
  import opened Common

  /** One day, in the seconds the model counts LocalDateTime in. */
  const DAY: int := 86400
  /** The length = 50 of the type and type_reference columns. */
  const CODE_LENGTH: int := 50
  /** The sujet column declares no length, so it has JPA's default of 255. */
  const SUJET_LENGTH: int := 255

  /** The seven fields a producer chooses: everything but id, lue and the two timestamps. */
  datatype Content = Content(
    destinataireId: Option<int>,
    expediteurId: Option<int>,
    typ: Option<string>,
    sujet: Option<string>,
    message: Option<string>,
    referenceId: Option<int>,
    typeReference: Option<string>)

  /** A stored row. The NOT NULL columns (destinataire_id, type, sujet, message,
      lue) are plain values; date_envoi is always stamped by the persist callback. */
  datatype NotificationRow = NotificationRow(
    id: int,
    destinataireId: int,
    expediteurId: Option<int>,
    typ: string,
    sujet: string,
    message: string,
    referenceId: Option<int>,
    typeReference: Option<string>,
    lue: bool,
    dateEnvoi: int,
    dateLecture: Option<int>)

  function RowContent(r: NotificationRow): Content
  {
    Content(Some(r.destinataireId), r.expediteurId, Some(r.typ), Some(r.sujet), Some(r.message), r.referenceId, r.typeReference)
  }

  /** Whether the database accepts content: the NOT NULL columns are set, the
      two code columns fit in 50 characters and the subject in 255 (the message
      is TEXT, without a limit). */
  predicate Insertable(c: Content)
  {
    && c.destinataireId.Some? && c.typ.Some? && c.sujet.Some? && c.message.Some?
    && |c.typ.value| <= CODE_LENGTH && |c.sujet.value| <= SUJET_LENGTH
    && (c.typeReference.Some? ==> |c.typeReference.value| <= CODE_LENGTH)
  }

  /** The row an INSERT of insertable content produces. */
  function NewRow(id: int, c: Content, lue: bool, dateEnvoi: int, dateLecture: Option<int>): (r: NotificationRow)
    requires Insertable(c)
    ensures RowContent(r) == c
    ensures r.id == id && r.lue == lue && r.dateEnvoi == dateEnvoi && r.dateLecture == dateLecture
  {
    NotificationRow(id, c.destinataireId.value, c.expediteurId, c.typ.value, c.sujet.value, c.message.value,
                    c.referenceId, c.typeReference, lue, dateEnvoi, dateLecture)
  }

  /** The read transition of the entity: lue becomes true, dateLecture becomes
      now, and every other column keeps its value. */
  function MarkRead(r: NotificationRow, now: int): (m: NotificationRow)
    ensures m.lue && m.dateLecture == Some(now)
    ensures m.(lue := r.lue, dateLecture := r.dateLecture) == r
    ensures RowContent(m) == RowContent(r) && m.id == r.id && m.dateEnvoi == r.dateEnvoi
  {
    r.(lue := true, dateLecture := Some(now))
  }

  /** estRecente(): a notification never sent is not recent; otherwise it is
      recent when it was sent strictly less than one day before now. */
  function EstRecente(dateEnvoi: Option<int>, now: int): (r: bool)
    ensures r <==> dateEnvoi.Some? && now - dateEnvoi.value < DAY
  {
    dateEnvoi.Some? && dateEnvoi.value > now - DAY
  }

  // ---------------------------------------------------------------------------
  // Row predicates of the named and inline JPQL queries
  // ---------------------------------------------------------------------------

  /** WHERE n.destinataireId = :userId */
  function ForRecipient(u: int): NotificationRow -> bool
  {
    (r: NotificationRow) => r.destinataireId == u
  }

  /** WHERE n.destinataireId = :userId AND n.lue = false (findNonLues and countNonLues alike). */
  function UnreadFor(u: int): NotificationRow -> bool
  {
    (r: NotificationRow) => r.destinataireId == u && !r.lue
  }

  /** The rows of the recipient that are already read. */
  function ReadFor(u: int): NotificationRow -> bool
  {
    (r: NotificationRow) => r.destinataireId == u && r.lue
  }

  function IsUnread(): NotificationRow -> bool
  {
    (r: NotificationRow) => !r.lue
  }

  /** WHERE n.destinataireId = :userId AND n.dateEnvoi >= cutoff */
  function RecentFor(u: int, cutoff: int): NotificationRow -> bool
  {
    (r: NotificationRow) => r.destinataireId == u && r.dateEnvoi >= cutoff
  }

  /** The rows of every other recipient. */
  function NotFor(u: int): NotificationRow -> bool
  {
    (r: NotificationRow) => r.destinataireId != u
  }

  function NotId(id: int): NotificationRow -> bool
  {
    (r: NotificationRow) => r.id != id
  }

  /** WHERE n.lue = true AND n.dateLecture < cutoff; a NULL dateLecture compares unknown, so it is kept. */
  function Purgeable(cutoff: int): NotificationRow -> bool
  {
    (r: NotificationRow) => r.lue && r.dateLecture.Some? && r.dateLecture.value < cutoff
  }

  function Survives(cutoff: int): NotificationRow -> bool
  {
    (r: NotificationRow) => !(r.lue && r.dateLecture.Some? && r.dateLecture.value < cutoff)
  }

  /** The table order: rows were inserted with nondecreasing dateEnvoi. */
  function SentNoLater(): (NotificationRow, NotificationRow) -> bool
  {
    (a: NotificationRow, b: NotificationRow) => a.dateEnvoi <= b.dateEnvoi
  }

  /** ORDER BY n.dateEnvoi DESC */
  function SentNoEarlier(): (NotificationRow, NotificationRow) -> bool
  {
    (a: NotificationRow, b: NotificationRow) => a.dateEnvoi >= b.dateEnvoi
  }

  /** Identity columns grow with insertion order. */
  function IdBefore(): (NotificationRow, NotificationRow) -> bool
  {
    (a: NotificationRow, b: NotificationRow) => a.id < b.id
  }

  // ---------------------------------------------------------------------------
  // The managed bean
  // ---------------------------------------------------------------------------

  /** A Notification object as the services build it field by field. Wrapper
      fields that may be null are Options; lue starts false. */
  class Notification {
    var id: Option<int>
    var destinataireId: Option<int>
    var expediteurId: Option<int>
    var typ: Option<string>
    var sujet: Option<string>
    var message: Option<string>
    var referenceId: Option<int>
    var typeReference: Option<string>
    var lue: bool
    var dateEnvoi: Option<int>
    var dateLecture: Option<int>

    /** The no-argument constructor: every reference field null, lue false. */
    constructor ()
      ensures Fields() == Content(None, None, None, None, None, None, None)
      ensures id.None? && !lue && dateEnvoi.None? && dateLecture.None?
    {
      id, destinataireId, expediteurId, typ, sujet, message := None, None, None, None, None, None;
      referenceId, typeReference := None, None;
      lue, dateEnvoi, dateLecture := false, None, None;
    }

    /** The four-argument constructor: lue false, sender and reference left null. */
    constructor WithContent(destinataireId: Option<int>, typ: Option<string>, sujet: Option<string>, message: Option<string>)
      ensures Fields() == Content(destinataireId, None, typ, sujet, message, None, None)
      ensures id.None? && !lue && dateEnvoi.None? && dateLecture.None?
    {
      this.id, this.destinataireId, this.expediteurId := None, destinataireId, None;
      this.typ, this.sujet, this.message := typ, sujet, message;
      this.referenceId, this.typeReference := None, None;
      this.lue, this.dateEnvoi, this.dateLecture := false, None, None;
    }

    /** The all-fields constructor. */
    constructor Full(id: Option<int>, destinataireId: Option<int>, expediteurId: Option<int>, typ: Option<string>,
                     sujet: Option<string>, message: Option<string>, referenceId: Option<int>,
                     typeReference: Option<string>, lue: bool, dateEnvoi: Option<int>, dateLecture: Option<int>)
      ensures Fields() == Content(destinataireId, expediteurId, typ, sujet, message, referenceId, typeReference)
      ensures this.id == id && this.lue == lue && this.dateEnvoi == dateEnvoi && this.dateLecture == dateLecture
    {
      this.id, this.destinataireId, this.expediteurId := id, destinataireId, expediteurId;
      this.typ, this.sujet, this.message := typ, sujet, message;
      this.referenceId, this.typeReference := referenceId, typeReference;
      this.lue, this.dateEnvoi, this.dateLecture := lue, dateEnvoi, dateLecture;
    }

    /** The content fields of the bean. */
    function Fields(): Content
      reads this
    {
      Content(destinataireId, expediteurId, typ, sujet, message, referenceId, typeReference)
    }

    /** @PrePersist: the send time is the persist time. */
    method OnCreate(now: int)
      modifies this`dateEnvoi
      ensures dateEnvoi == Some(now)
    {
      dateEnvoi := Some(now);
    }

    /** marquerCommeLue(): sets the flag and re-stamps the read time on every
        call, whether or not the notification was already read. */
    method MarquerCommeLue(now: int)
      modifies this`lue, this`dateLecture
      ensures lue && dateLecture == Some(now)
    {
      lue := true;
      dateLecture := Some(now);
    }
  }
}
