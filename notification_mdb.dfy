/** NotificationMDB: the listener on the notification queue. For each message
    it unpacks a NotificationEvent, copies its seven fields into a new
    Notification and hands that to the notification service; anything else is
    logged as unsupported, and every exception is caught and logged. */
module JmsConsumer {
  import opened Common
  import opened NotificationEntity
  import opened JmsEvents
  import opened JmsProducer
  import opened NotificationStore

  /** What one onMessage call ends in, as the log records it. */
  datatype Handling =
    | Stored(id: int)                // creerNotification persisted the row with this id
    | StoreFailed(error: Exception)  // service.create threw; creerNotification logged it
    | Unsupported                    // not an ObjectMessage, or an object that is not an event
    | Failed(error: Exception)       // onMessage's own catch blocks

  /** The event content onMessage hands to creerNotification, if any. */
  function Delivered(msg: Message): (r: Option<Content>)
    ensures r.Some? <==> msg.ObjectMessage? && msg.payload.EventPayload?
    ensures r.Some? ==> r.value == msg.payload.event
  {
    if msg.ObjectMessage? && msg.payload.EventPayload? then Some(msg.payload.event) else None
  }

  /** The outcome of onMessage for a message, given the next identity value. */
  function Handle(msg: Message, nextId: int): (h: Handling)
    ensures h.Stored? <==> Delivered(msg).Some? && Insertable(Delivered(msg).value)
    ensures h.Stored? ==> h.id == nextId
    ensures h.StoreFailed? ==> h.error == PersistenceException
    ensures h == Unsupported <==> msg.OtherMessage? || msg.payload.OtherObject?
    ensures msg.ObjectMessage? && msg.payload.NullObject? ==> h == Failed(NullPointer)
  {
    match msg
    case OtherMessage => Unsupported
    case ObjectMessage(p) =>
      match p
      case EventPayload(c) => if Insertable(c) then Stored(nextId) else StoreFailed(PersistenceException)
      case OtherObject => Unsupported
      // the warning dereferences object.getClass() on a null object; catch (Exception) logs it
      case NullObject => Failed(NullPointer)
      // getObject() cannot deserialize: a JMSException, logged by the first catch
      case Unreadable => Failed(JmsException)
  }

  /** The rows onMessage adds to the notifications table. */
  function Stores(msg: Message, nextId: int, clock: int): (r: seq<NotificationRow>)
    ensures |r| <= 1
    ensures r != [] <==> Handle(msg, nextId).Stored?
    ensures r != [] ==> (r[0].id == nextId && RowContent(r[0]) == Delivered(msg).value && !r[0].lue
      && r[0].dateEnvoi == clock && r[0].dateLecture.None?)
  {
    match Delivered(msg)
    case Some(c) => if Insertable(c) then [NewRow(nextId, c, false, clock, None)] else []
    case None => []
  }

  /** What the producer queues, the consumer stores: a send that did not fail,
      consumed, adds one unread row with the event's content, and the
      recipient's unread count grows by one. */
  lemma {:induction false} SentEventIsStored(env: JmsEnv, e: Content, table: seq<NotificationRow>, nextId: int, clock: int)
    requires env.fault.None? && Insertable(e)
    ensures |Sent(env, e)| == 1
    ensures var after := table + Stores(Sent(env, e)[0], nextId, clock);
      && |after| == |table| + 1 && RowContent(after[|table|]) == e && !after[|table|].lue
      && CountNonLues(after, e.destinataireId.value) == CountNonLues(table, e.destinataireId.value) + 1
  {
    var u := e.destinataireId.value;
    var stored := Stores(Sent(env, e)[0], nextId, clock);
    assert stored == [NewRow(nextId, e, false, clock, None)];
    CountIsFilterLength(UnreadFor(u), table + stored);
    CountIsFilterLength(UnreadFor(u), table);
    FilterAppend(UnreadFor(u), table, stored);
    assert Filter(UnreadFor(u), stored) == stored;
  }

  class NotificationMDB {
    /** The injected NotificationService. */
    const service: NotificationService

    constructor (service: NotificationService)
      ensures this.service == service
    {
      this.service := service;
    }

    /** onMessage(message). */
    method OnMessage(msg: Message) returns (h: Handling)
      requires service.Valid()
      modifies service`rows, service`nextId
      ensures service.Valid() && service.clock == old(service.clock)
      ensures h == Handle(msg, old(service.nextId))
      ensures service.rows == old(service.rows) + Stores(msg, old(service.nextId), service.clock)
      ensures h.Stored? ==> service.nextId == old(service.nextId) + 1
      ensures !h.Stored? ==> service.nextId == old(service.nextId)
    {
      if !msg.ObjectMessage? {
        return Unsupported;
      }
      match msg.payload
      case EventPayload(c) =>
        // getObject() yields a deserialized copy of the event the producer sent
        var event := new NotificationEvent();
        event.destinataireId, event.expediteurId, event.typ, event.sujet := c.destinataireId, c.expediteurId, c.typ, c.sujet;
        event.message, event.referenceId, event.typeReference := c.message, c.referenceId, c.typeReference;
        h := CreerNotification(event);
      case OtherObject =>
        h := Unsupported;
      case NullObject =>
        h := Failed(NullPointer);
      case Unreadable =>
        h := Failed(JmsException);
    }

    /** creerNotification(event): a new Notification carrying the event's seven
        fields, persisted by the service; a failure is logged, not rethrown. */
    method CreerNotification(event: NotificationEvent) returns (h: Handling)
      requires service.Valid()
      modifies service`rows, service`nextId
      ensures service.Valid() && service.clock == old(service.clock)
      ensures h.Stored? <==> Insertable(event.Value())
      ensures h.Stored? ==> (h.id == old(service.nextId) && service.nextId == old(service.nextId) + 1
        && service.rows == old(service.rows) + [NewRow(old(service.nextId), event.Value(), false, service.clock, None)])
      ensures !h.Stored? ==> (h == StoreFailed(PersistenceException)
        && service.rows == old(service.rows) && service.nextId == old(service.nextId))
    {
      var n := new Notification();
      n.destinataireId := event.destinataireId;
      n.expediteurId := event.expediteurId;
      n.typ := event.typ;
      n.sujet := event.sujet;
      n.message := event.message;
      n.referenceId := event.referenceId;
      n.typeReference := event.typeReference;
      var res := service.Create(n);
      if res.Ok? {
        h := Stored(n.id.value);
      } else {
        h := StoreFailed(res.error);
      }
    }
  }
}
