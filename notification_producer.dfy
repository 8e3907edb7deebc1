/** NotificationProducer: builds notification events and sends them, best
    effort, to the notification queue. The broker is a queue of messages plus
    the record of the connection and session calls made on it; whether and
    where the broker fails is a parameter of each send. */
module JmsProducer {
  import opened Common
  import opened NotificationEntity
  import opened JmsEvents
  import NotificationStore

  /** What an ObjectMessage holds once read back: an event, some other
      serializable object, null, or bytes that fail to deserialize. */
  datatype Payload = EventPayload(event: Content) | OtherObject | NullObject | Unreadable

  datatype Message = ObjectMessage(payload: Payload) | OtherMessage

  /** The broker calls of the try block, in order. */
  datatype JmsStep = CreateConnection | CreateSession | CreateProducer | CreateObjectMessage | SendMessage

  /** A failing broker call: a JMSException, or an unchecked exception when unchecked holds. */
  datatype Fault = Fault(step: JmsStep, unchecked: bool)

  /** How the broker behaves during one send: the failing call of the try block,
      if any, and whether session.close() throws a JMSException. A throwing
      connection.close() is caught and logged and changes no call, so it has no field. */
  datatype JmsEnv = JmsEnv(fault: Option<Fault>, sessionCloseFails: bool)

  /** The resource calls a send makes; a close is recorded when it is attempted. */
  datatype JmsCall = OpenConnection | OpenSession | Send | CloseSession | CloseConnection

  function Rank(s: JmsStep): nat
  {
    match s
    case CreateConnection => 0
    case CreateSession => 1
    case CreateProducer => 2
    case CreateObjectMessage => 3
    case SendMessage => 4
  }

  /** Whether the step of the try block completes: nothing before it or at it failed. */
  predicate Completes(env: JmsEnv, step: JmsStep)
  {
    env.fault.None? || Rank(step) < Rank(env.fault.value.step)
  }

  /** The messages one send adds to the queue. */
  function Sent(env: JmsEnv, e: Content): (r: seq<Message>)
    ensures |r| <= 1
    ensures env.fault.None? <==> r == [ObjectMessage(EventPayload(e))]
  {
    if env.fault.None? then [ObjectMessage(EventPayload(e))] else []
  }

  /** What escapes a send: only an unchecked exception; every JMSException is caught and logged. */
  function Escapes(env: JmsEnv): (r: Option<Exception>)
    ensures r.Some? ==> r.value == RuntimeFailure
    ensures r.Some? <==> env.fault.Some? && env.fault.value.unchecked
  {
    if env.fault.Some? && env.fault.value.unchecked then Some(RuntimeFailure) else None
  }

  /** The finally block as written: both closes share one try, so a failing
      session close skips the connection close. */
  function FinallyAsWritten(sessionOpen: bool, connectionOpen: bool, sessionCloseFails: bool): (r: seq<JmsCall>)
    ensures CloseSession in r <==> sessionOpen
    ensures CloseConnection in r <==> connectionOpen && !(sessionOpen && sessionCloseFails)
    ensures OpenConnection !in r && OpenSession !in r && Send !in r
  {
    (if sessionOpen then [CloseSession] else [])
    + (if connectionOpen && !(sessionOpen && sessionCloseFails) then [CloseConnection] else [])
  }

  /** The evident intent: each opened resource gets its own close attempt, the session first. */
  function FinallyCorrected(sessionOpen: bool, connectionOpen: bool): (r: seq<JmsCall>)
    ensures CloseSession in r <==> sessionOpen
    ensures CloseConnection in r <==> connectionOpen
    ensures OpenConnection !in r && OpenSession !in r && Send !in r
    ensures sessionOpen && connectionOpen ==> r == [CloseSession, CloseConnection]
  {
    (if sessionOpen then [CloseSession] else []) + (if connectionOpen then [CloseConnection] else [])
  }

  /** The input that shows the leak: both resources open and session.close() throwing. */
  lemma FinallyAsWrittenLeaksConnection()
    ensures CloseConnection !in FinallyAsWritten(true, true, true)
    ensures CloseConnection in FinallyCorrected(true, true)
  {
  }

  /** Where the session close succeeds, the two finally blocks agree. */
  lemma FinallyAgreesWithoutCloseFailure(sessionOpen: bool, connectionOpen: bool)
    ensures FinallyAsWritten(sessionOpen, connectionOpen, false) == FinallyCorrected(sessionOpen, connectionOpen)
  {
  }

  /** Every call one send makes, in order, with the finally block as written. */
  function SendCalls(env: JmsEnv): seq<JmsCall>
  {
    var connection := Completes(env, CreateConnection);
    var session := Completes(env, CreateSession);
    TryCalls(env) + FinallyAsWritten(session, connection, env.sessionCloseFails)
  }

  /** The calls of the try block: the opens that succeed, and the send when nothing fails. */
  function TryCalls(env: JmsEnv): seq<JmsCall>
  {
    (if Completes(env, CreateConnection) then [OpenConnection] else [])
    + (if Completes(env, CreateSession) then [OpenSession] else [])
    + (if env.fault.None? then [Send] else [])
  }

  /** The calls one send would make with the corrected finally block. */
  function SendCallsCorrected(env: JmsEnv): seq<JmsCall>
  {
    TryCalls(env) + FinallyCorrected(Completes(env, CreateSession), Completes(env, CreateConnection))
  }

  /** As written, every send closes the session it opened, sends only with both
      resources open, and closes the connection it opened exactly when closing
      the session did not throw; a send without failure makes the full sequence. */
  lemma SendClosesWhatItOpens(env: JmsEnv)
    ensures OpenSession in SendCalls(env) <==> CloseSession in SendCalls(env)
    ensures OpenSession in SendCalls(env) ==> OpenConnection in SendCalls(env)
    ensures CloseConnection in SendCalls(env)
        <==> OpenConnection in SendCalls(env) && !(OpenSession in SendCalls(env) && env.sessionCloseFails)
    ensures Send in SendCalls(env) <==> env.fault.None?
    ensures env.fault.None? && !env.sessionCloseFails
        ==> SendCalls(env) == [OpenConnection, OpenSession, Send, CloseSession, CloseConnection]
    ensures env.fault.None? && env.sessionCloseFails
        ==> SendCalls(env) == [OpenConnection, OpenSession, Send, CloseSession]
  {
    // the shapes a send can take, by how far the try block gets
    if env.fault.None? {
      assert TryCalls(env) == [OpenConnection, OpenSession, Send];
    } else if !Completes(env, CreateConnection) {
      assert TryCalls(env) == [];
    } else if !Completes(env, CreateSession) {
      assert TryCalls(env) == [OpenConnection];
    } else {
      assert TryCalls(env) == [OpenConnection, OpenSession];
    }
  }

  /** The leak, at the level of a whole send: once the session is open, a
      throwing session.close() leaves the opened connection unclosed, while the
      corrected cleanup closes it. */
  lemma SendLeaksConnection(env: JmsEnv)
    requires Completes(env, CreateSession) && env.sessionCloseFails
    ensures OpenConnection in SendCalls(env) && CloseConnection !in SendCalls(env)
    ensures CloseConnection in SendCallsCorrected(env)
  {
    assert Completes(env, CreateConnection);
    assert TryCalls(env)[0] == OpenConnection;
    assert SendCallsCorrected(env) == TryCalls(env) + [CloseSession, CloseConnection];
    assert SendCallsCorrected(env)[|SendCallsCorrected(env)| - 1] == CloseConnection;
  }

  /** With the corrected cleanup every send closes what it opened, the session
      before the connection, and the connection last. */
  lemma CorrectedSendClosesWhatItOpens(env: JmsEnv)
    ensures OpenConnection in SendCallsCorrected(env) <==> CloseConnection in SendCallsCorrected(env)
    ensures OpenSession in SendCallsCorrected(env) <==> CloseSession in SendCallsCorrected(env)
    ensures |SendCallsCorrected(env)| >= 2
        ==> SendCallsCorrected(env)[|SendCallsCorrected(env)| - 1] == CloseConnection
  {
    if env.fault.None? {
      assert SendCallsCorrected(env) == [OpenConnection, OpenSession, Send, CloseSession, CloseConnection];
    } else if !Completes(env, CreateConnection) {
      assert SendCallsCorrected(env) == [];
    } else if !Completes(env, CreateSession) {
      assert SendCallsCorrected(env) == [OpenConnection, CloseConnection];
    } else {
      assert SendCallsCorrected(env) == [OpenConnection, OpenSession, CloseSession, CloseConnection];
    }
  }

  // ---------------------------------------------------------------------------
  // Event content of the three builders
  // ---------------------------------------------------------------------------

  function AbsenceEvent(employeId: Option<int>, managerId: Option<int>, absenceId: Option<int>,
                        typeAbsence: Option<string>, dateAbsence: Option<string>): (e: Content)
    ensures e.destinataireId == employeId && e.expediteurId == managerId && e.referenceId == absenceId
    ensures e.typ == Some("ABSENCE") && e.typeReference == Some("ABSENCE")
  {
    Content(employeId, managerId, Some("ABSENCE"), Some("Absence enregistrée"),
            Some("Votre absence (" + Str(typeAbsence) + ") du " + Str(dateAbsence) + " a été enregistrée."),
            absenceId, Some("ABSENCE"))
  }

  function CongeApprouveEvent(employeId: Option<int>, managerId: Option<int>, congeId: Option<int>,
                              periode: Option<string>): (e: Content)
    ensures e.destinataireId == employeId && e.expediteurId == managerId && e.referenceId == congeId
    ensures e.typ == Some("CONGE_APPROUVE") && e.typeReference == Some("DEMANDE_CONGE")
  {
    Content(employeId, managerId, Some("CONGE_APPROUVE"), Some("Demande de congé approuvée"),
            Some("Votre demande de congé du " + Str(periode) + " a été approuvée."),
            congeId, Some("DEMANDE_CONGE"))
  }

  /** The rejection inserts raison as it is: a null raison prints "null". */
  function CongeRejeteEvent(employeId: Option<int>, managerId: Option<int>, congeId: Option<int>,
                            periode: Option<string>, raison: Option<string>): (e: Content)
    ensures e.destinataireId == employeId && e.expediteurId == managerId && e.referenceId == congeId
    ensures e.typ == Some("CONGE_REJETE") && e.typeReference == Some("DEMANDE_CONGE")
    ensures e.message.Some? && EndsWith(e.message.value, "Raison : " + Str(raison))
  {
    Content(employeId, managerId, Some("CONGE_REJETE"), Some("Demande de congé rejetée"),
            Some("Votre demande de congé du " + Str(periode) + " a été rejetée. Raison : " + Str(raison)),
            congeId, Some("DEMANDE_CONGE"))
  }

  /** The queued absence event carries the same seven fields as the notification
      NotificationService.creerNotificationAbsence stores for the same inputs. */
  lemma AbsenceEventMatchesService(employeId: Option<int>, managerId: Option<int>, absenceId: Option<int>,
                                   typeAbsence: Option<string>, dateAbsence: Option<string>)
    ensures AbsenceEvent(employeId, managerId, absenceId, typeAbsence, dateAbsence)
         == NotificationStore.AbsenceNotice(employeId, managerId, absenceId, typeAbsence, dateAbsence)
  {
  }

  /** The approval event equals the service's "APPROUVE" notification, whatever the comment. */
  lemma CongeApprouveMatchesService(employeId: Option<int>, managerId: Option<int>, congeId: Option<int>,
                                    periode: Option<string>, commentaire: Option<string>)
    ensures CongeApprouveEvent(employeId, managerId, congeId, periode)
         == NotificationStore.CongeNotice(employeId, managerId, congeId, Some("APPROUVE"), periode, commentaire)
  {
  }

  /** The rejection event equals the service's "REJETE" notification exactly when
      a reason is given: the producer has no "Non précisée" fallback. */
  lemma CongeRejeteMatchesServiceIffReason(employeId: Option<int>, managerId: Option<int>, congeId: Option<int>,
                                           periode: Option<string>, raison: Option<string>)
    ensures CongeRejeteEvent(employeId, managerId, congeId, periode, raison)
         == NotificationStore.CongeNotice(employeId, managerId, congeId, Some("REJETE"), periode, raison)
        <==> raison.Some?
  {
    var e := CongeRejeteEvent(employeId, managerId, congeId, periode, raison);
    var n := NotificationStore.CongeNotice(employeId, managerId, congeId, Some("REJETE"), periode, raison);
    if raison.None? {
      assert |e.message.value| != |n.message.value|;
    }
  }

  // ---------------------------------------------------------------------------
  // The broker and the producer
  // ---------------------------------------------------------------------------

  class Broker {
    /** java:/jms/queue/NotificationQueue, oldest message first. */
    var queue: seq<Message>
    /** The connection and session calls made so far. */
    var calls: seq<JmsCall>

    constructor ()
      ensures queue == [] && calls == []
    {
      queue, calls := [], [];
    }
  }

  class NotificationProducer {
    /** The injected connection factory and queue. */
    const broker: Broker

    constructor (broker: Broker)
      ensures this.broker == broker
    {
      this.broker := broker;
    }

    /** envoyerNotification(event): opens a connection and a session, sends the
        event as an ObjectMessage, and closes what it opened, the connection only
        when closing the session did not throw. A JMSException is logged and
        swallowed; an unchecked exception leaves after the cleanup. */
    method EnvoyerNotification(event: NotificationEvent, env: JmsEnv) returns (thrown: Option<Exception>)
      modifies broker
      ensures broker.queue == old(broker.queue) + Sent(env, event.Value())
      ensures broker.calls == old(broker.calls) + SendCalls(env)
      ensures thrown == Escapes(env)
    {
      var connectionOpen, sessionOpen := false, false;
      var failure: Option<Fault> := None;
      // try
      if !Completes(env, CreateConnection) {
        failure := env.fault;
      } else {
        connectionOpen := true;
        broker.calls := broker.calls + [OpenConnection];
        if !Completes(env, CreateSession) {
          failure := env.fault;
        } else {
          sessionOpen := true;
          broker.calls := broker.calls + [OpenSession];
          if env.fault.Some? {
            // createProducer, createObjectMessage or send failed
            failure := env.fault;
          } else {
            broker.queue := broker.queue + [ObjectMessage(EventPayload(event.Value()))];
            broker.calls := broker.calls + [Send];
          }
        }
      }
      // finally: one try around both closes, so a session.close() that throws
      // skips connection.close(); the JMSException is logged
      if sessionOpen {
        broker.calls := broker.calls + [CloseSession];
      }
      if connectionOpen && !(sessionOpen && env.sessionCloseFails) {
        broker.calls := broker.calls + [CloseConnection];
      }
      thrown := if failure.Some? && failure.value.unchecked then Some(RuntimeFailure) else None;
    }

    /** envoyerNotificationAbsence. */
    method EnvoyerNotificationAbsence(employeId: Option<int>, managerId: Option<int>, absenceId: Option<int>,
                                      typeAbsence: Option<string>, dateAbsence: Option<string>, env: JmsEnv)
      returns (thrown: Option<Exception>)
      modifies broker
      ensures broker.queue == old(broker.queue) + Sent(env, AbsenceEvent(employeId, managerId, absenceId, typeAbsence, dateAbsence))
      ensures broker.calls == old(broker.calls) + SendCalls(env)
      ensures thrown == Escapes(env)
    {
      var event := new NotificationEvent();
      event.SetDestinataireId(employeId);
      event.SetExpediteurId(managerId);
      event.SetType(Some("ABSENCE"));
      event.SetSujet(Some("Absence enregistrée"));
      event.SetMessage(Some("Votre absence (" + Str(typeAbsence) + ") du " + Str(dateAbsence) + " a été enregistrée."));
      event.SetReferenceId(absenceId);
      event.SetTypeReference(Some("ABSENCE"));
      thrown := EnvoyerNotification(event, env);
    }

    /** envoyerNotificationCongeApprouve. */
    method EnvoyerNotificationCongeApprouve(employeId: Option<int>, managerId: Option<int>, congeId: Option<int>,
                                            periode: Option<string>, env: JmsEnv)
      returns (thrown: Option<Exception>)
      modifies broker
      ensures broker.queue == old(broker.queue) + Sent(env, CongeApprouveEvent(employeId, managerId, congeId, periode))
      ensures broker.calls == old(broker.calls) + SendCalls(env)
      ensures thrown == Escapes(env)
    {
      var event := new NotificationEvent();
      event.SetDestinataireId(employeId);
      event.SetExpediteurId(managerId);
      event.SetType(Some("CONGE_APPROUVE"));
      event.SetSujet(Some("Demande de congé approuvée"));
      event.SetMessage(Some("Votre demande de congé du " + Str(periode) + " a été approuvée."));
      event.SetReferenceId(congeId);
      event.SetTypeReference(Some("DEMANDE_CONGE"));
      thrown := EnvoyerNotification(event, env);
    }

    /** envoyerNotificationCongeRejete. */
    method EnvoyerNotificationCongeRejete(employeId: Option<int>, managerId: Option<int>, congeId: Option<int>,
                                          periode: Option<string>, raison: Option<string>, env: JmsEnv)
      returns (thrown: Option<Exception>)
      modifies broker
      ensures broker.queue == old(broker.queue) + Sent(env, CongeRejeteEvent(employeId, managerId, congeId, periode, raison))
      ensures broker.calls == old(broker.calls) + SendCalls(env)
      ensures thrown == Escapes(env)
    {
      var event := new NotificationEvent();
      event.SetDestinataireId(employeId);
      event.SetExpediteurId(managerId);
      event.SetType(Some("CONGE_REJETE"));
      event.SetSujet(Some("Demande de congé rejetée"));
      event.SetMessage(Some("Votre demande de congé du " + Str(periode) + " a été rejetée. Raison : " + Str(raison)));
      event.SetReferenceId(congeId);
      event.SetTypeReference(Some("DEMANDE_CONGE"));
      thrown := EnvoyerNotification(event, env);
    }
  }
}
