# Absences and notifications platform: a Dafny model

This project models the core of a small Jakarta EE human-resources platform.
Its two modules are covered as follows.

**Notifications.**
- The `notifications` table, with its finders, statistics and read/unread
  state machine: a notification starts unread, and marking it read stamps
  `dateLecture` once.
- Purging old read notifications.
- The JMS pipeline that carries `NotificationEvent`s:
  - `NotificationProducer` builds events and sends them to a queue,
    best effort;
  - `NotificationMDB` turns each queued event into a stored notification.
- `NotificationResource`, the `/notifications` REST endpoints.

**Absences.**
- The `absences` and `types_absences` tables, with their named queries,
  ORDER BY clauses and foreign key.
- `AbsenceService` and `TypeAbsenceService`. Creating an absence also
  notifies the employee through the producer.
- `AbsenceResource` and `TypeAbsenceResource`, with their validation
  cascades, defaults, partial updates and role checks.

**Authentication.**
- The `utilisateurs` table and `UtilisateurService`. Passwords reach the
  table only as hashes.
- The login decision of `AuthentificationService`.
- `JwtAuthenticationFilter`. It reads a `Bearer` token (section 2.1 of
  RFC 6750) and installs a security context.
- `UtilisateurResource`, the `/utilisateurs` REST endpoints.

**How the model represents them.**
- Tables are sequences of row datatypes, in identity order.
- The entity manager behind each service is a class. It holds the tables,
  the identity counters and the clock, and its methods carry `modifies`
  clauses.
- JPA beans that the code fills through setters are small classes with
  nullable (`Option`) fields:
  - `Notification`, `NotificationEvent`, `Absence`, `TypeAbsence` and
    `Utilisateur`;
  - a bean becomes a row when it is persisted;
  - a null in a NOT NULL column, or a string longer than its column, makes
    the persist fail with a `PersistenceException`; a column without a
    declared length, such as the notification's `sujet`, holds 255 characters.
- Each REST endpoint is a method returning the status and body the Java
  code builds.
- The broker is a queue of messages plus a record of the connection and
  session calls. Where a send fails, and whether closing the session fails,
  is a parameter of each send.
- The producer is a stateless bean that joins the caller's transaction. An
  unchecked exception leaving it makes `AbsenceService.create` roll back,
  although `create` catches the exception and returns normally.
- Hashing and token signing are uninterpreted functions of the security
  service:
  - `hashpw(password, salt)`;
  - `sign(claims)`;
  - `parse(token, now)`.

The state invariants carried from call to call are:
- identities strictly increasing and below the counter;
- unique type names;
- unique user names and e-mails;
- every absence pointing at an existing type;
- the notifications table in `dateEnvoi` order.

## Model

Source paths are relative to the repository root.

| member | source | states |
|---|---|---|
| NotificationEntity.NewRow | module-absences-notifications/src/main/java/com/plateforme/absences/entities/Notification.java:31-63 | a persisted notification keeps the seven content fields of its bean exactly, with the id, read flag and dates given |
| NotificationEntity.MarkRead | module-absences-notifications/src/main/java/com/plateforme/absences/entities/Notification.java:100-103 | marking read sets lue and stamps dateLecture with now; every other column is left as it was |
| NotificationEntity.EstRecente | module-absences-notifications/src/main/java/com/plateforme/absences/entities/Notification.java:108-111 | recent exactly when the notification was sent, and sent strictly less than 24 hours before now |
| NotificationEntity.Notification.constructor | module-absences-notifications/src/main/java/com/plateforme/absences/entities/Notification.java:66-67 | the empty bean: all content null, unread, no dates |
| NotificationEntity.Notification.WithContent | module-absences-notifications/src/main/java/com/plateforme/absences/entities/Notification.java:69-75 | the four-argument constructor sets recipient, type, subject and message and leaves the notification unread |
| NotificationEntity.Notification.Full | module-absences-notifications/src/main/java/com/plateforme/absences/entities/Notification.java:77-89 | the all-fields constructor holds exactly the values passed |
| NotificationEntity.Notification.OnCreate | module-absences-notifications/src/main/java/com/plateforme/absences/entities/Notification.java:92-95 | @PrePersist stamps dateEnvoi with the current time and changes nothing else |
| NotificationEntity.Notification.MarquerCommeLue | module-absences-notifications/src/main/java/com/plateforme/absences/entities/Notification.java:100-103 | the bean becomes read, with dateLecture set to now |
| NotificationStore.FilterChronological | module-absences-notifications/src/main/java/com/plateforme/absences/entities/Notification.java:59-60 | removing rows from a table in sending order leaves it in sending order (dateEnvoi is never updated) |
| NotificationStore.FilterValid | module-absences-notifications/src/main/java/com/plateforme/absences/services/NotificationService.java:293-333 | every delete keeps the table chronological, its ids below the counter and its dates no later than the clock |
| NotificationStore.SkeletonChronological | module-absences-notifications/src/main/java/com/plateforme/absences/services/NotificationService.java:254-281 | marking as read, which touches only lue and dateLecture, keeps the table in sending order |
| NotificationStore.ReverseNewestFirst | module-absences-notifications/src/main/java/com/plateforme/absences/entities/Notification.java:16 | reading a chronological table backwards yields ORDER BY dateEnvoi DESC |
| NotificationStore.IndexOf | module-absences-notifications/src/main/java/com/plateforme/absences/services/NotificationService.java:84-87 | the position found holds the id and is the first such; no position means the id is absent |
| NotificationStore.FindById | module-absences-notifications/src/main/java/com/plateforme/absences/services/NotificationService.java:84-87 | em.find: the row with that id, or nothing exactly when no row has that id |
| NotificationStore.FindByDestinataire | module-absences-notifications/src/main/java/com/plateforme/absences/services/NotificationService.java:36-44 | exactly the rows addressed to the user, as many as there are such rows |
| NotificationStore.DestinataireNewestFirst | module-absences-notifications/src/main/java/com/plateforme/absences/entities/Notification.java:14-17 | the recipient's list is in dateEnvoi descending order |
| NotificationStore.FindNonLues | module-absences-notifications/src/main/java/com/plateforme/absences/services/NotificationService.java:52-60 | exactly the unread rows addressed to the user |
| NotificationStore.NonLuesOfDestinataire | module-absences-notifications/src/main/java/com/plateforme/absences/entities/Notification.java:18-21 | the unread list is the recipient's list with read rows dropped, so it shares its newest-first order |
| NotificationStore.CountNonLuesIsListLength | module-absences-notifications/src/main/java/com/plateforme/absences/services/NotificationService.java:68-76 | the COUNT query agrees with the length of the unread list |
| NotificationStore.FindRecentes | module-absences-notifications/src/main/java/com/plateforme/absences/services/NotificationService.java:95-108 | the rows addressed to the user and sent within the last day, as many of them as there are up to 10, and never more |
| NotificationStore.RecentesComplete | module-absences-notifications/src/main/java/com/plateforme/absences/services/NotificationService.java:98-105 | when the user has at most 10 notifications from the last day, all of them are returned |
| NotificationStore.WindowIsSuffix | module-absences-notifications/src/main/java/com/plateforme/absences/services/NotificationService.java:98-101 | in a chronological table, the user's rows from the last day are the newest end of the user's rows |
| NotificationStore.RecentesArePrefix | module-absences-notifications/src/main/java/com/plateforme/absences/services/NotificationService.java:95-108 | the recent list is the head of the newest-first recipient list |
| NotificationStore.GetStatistiques | module-absences-notifications/src/main/java/com/plateforme/absences/services/NotificationService.java:345-357 | total is the recipient's list length, nonLues the unread list length, lues the read count, and lues + nonLues == total |
| NotificationStore.MarkOne | module-absences-notifications/src/main/java/com/plateforme/absences/services/NotificationService.java:254-263 | the first row with that id becomes MarkRead(row, now) when it is unread and stays as it is when read; an unknown id changes nothing; every other row and all content stay |
| NotificationStore.MarkOneIdempotent | module-absences-notifications/src/main/java/com/plateforme/absences/services/NotificationService.java:258-260 | marking the same notification read a second time, at any later time, changes nothing (dateLecture is stamped once) |
| NotificationStore.IndexOfSkeleton | module-absences-notifications/src/main/java/com/plateforme/absences/services/NotificationService.java:254-263 | marking as read does not move any id |
| NotificationStore.MarkAllRead | module-absences-notifications/src/main/java/com/plateforme/absences/services/NotificationService.java:271-281 | the user's unread rows become read at now; all other rows are unchanged |
| NotificationStore.MarkAllReadStatistiques | module-absences-notifications/src/main/java/com/plateforme/absences/services/NotificationService.java:271-281 | after marking all read the user has no unread notification and the totals are unchanged |
| NotificationStore.NoneUnreadAfterMarkAll | module-absences-notifications/src/main/java/com/plateforme/absences/services/NotificationService.java:271-281 | after marking all read the unread count of the user is 0 |
| NotificationStore.NothingLeftFor | module-absences-notifications/src/main/java/com/plateforme/absences/services/NotificationService.java:310-318 | after deleting by recipient, the recipient has no notification |
| NotificationStore.RecipientRemoved | module-absences-notifications/src/main/java/com/plateforme/absences/services/NotificationService.java:310-318 | deleting by recipient removes exactly the recipient's rows and leaves no row for them |
| NotificationStore.PurgeKeepsUnread | module-absences-notifications/src/main/java/com/plateforme/absences/services/NotificationService.java:325-333 | the purge removes exactly the purgeable rows and never an unread notification |
| NotificationStore.NotificationService.constructor | module-absences-notifications/src/main/java/com/plateforme/absences/services/NotificationService.java:23-24 | an empty table with the identity counter at 1 |
| NotificationStore.NotificationService.AdvanceClock | module-absences-notifications/src/main/java/com/plateforme/absences/services/NotificationService.java:100 | the clock that CURRENT_TIMESTAMP reads only moves forward, and the table invariant holds |
| NotificationStore.NotificationService.Create | module-absences-notifications/src/main/java/com/plateforme/absences/services/NotificationService.java:120-126 | persist succeeds exactly for a new bean whose NOT NULL columns are set, whose type fits 50 characters and subject 255; it gets the next id and dateEnvoi now and is appended; otherwise nothing is stored |
| NotificationStore.NotificationService.CreateContent | module-absences-notifications/src/main/java/com/plateforme/absences/services/NotificationService.java:120-126 | persisting given content whose columns fit (type 50, subject 255) stores exactly that content, unread, under the next id |
| NotificationStore.NotificationService.CreerNotificationAbsence | module-absences-notifications/src/main/java/com/plateforme/absences/services/NotificationService.java:138-160 | stores the absence notice for the employee, and succeeds exactly when the recipient is given |
| NotificationStore.NotificationService.CreerNotificationConge | module-absences-notifications/src/main/java/com/plateforme/absences/services/NotificationService.java:173-213 | stores the leave notice chosen by the status, and succeeds exactly when the recipient is given |
| NotificationStore.NotificationService.CreerNotification | module-absences-notifications/src/main/java/com/plateforme/absences/services/NotificationService.java:225-242 | stores the generic notification exactly when its columns are set and fit, the subject within 255 characters, with no reference |
| NotificationStore.NotificationService.MarquerCommeLue | module-absences-notifications/src/main/java/com/plateforme/absences/services/NotificationService.java:254-263 | unknown id: nothing changes and null is returned; already read: unchanged and returned; unread: marked read at now and returned |
| NotificationStore.NotificationService.MarquerToutesCommeLues | module-absences-notifications/src/main/java/com/plateforme/absences/services/NotificationService.java:271-281 | returns the number of unread notifications the user had and marks them all read |
| NotificationStore.NotificationService.Delete | module-absences-notifications/src/main/java/com/plateforme/absences/services/NotificationService.java:293-302 | true exactly when the id existed; afterwards no row has that id and every other row remains |
| NotificationStore.NotificationService.DeleteByDestinataire | module-absences-notifications/src/main/java/com/plateforme/absences/services/NotificationService.java:310-318 | returns the number of the recipient's rows, removes exactly those rows, and leaves none for the recipient |
| NotificationStore.NotificationService.DeleteAnciennesNotificationsLues | module-absences-notifications/src/main/java/com/plateforme/absences/services/NotificationService.java:325-333 | removes the notifications read more than 30 days before now, returns how many, and keeps every unread one |
| NotificationStore.AbsenceNotice | module-absences-notifications/src/main/java/com/plateforme/absences/services/NotificationService.java:138-160 | type and reference type ABSENCE, reference the absence id, sender the manager; storable exactly when the recipient is given |
| NotificationStore.RejectionMessage | module-absences-notifications/src/main/java/com/plateforme/absences/services/NotificationService.java:193-200 | the rejection message ends with "Raison : " and the comment, or "Non précisée" when there is none |
| NotificationStore.CongeNotice | module-absences-notifications/src/main/java/com/plateforme/absences/services/NotificationService.java:173-213 | APPROUVE gives CONGE_APPROUVE, REJETE gives CONGE_REJETE with the reason, anything else DEMANDE_CONGE; reference type DEMANDE_CONGE; storable exactly when the recipient is given |
| JmsEvents.NotificationEvent.constructor | module-absences-notifications/src/main/java/com/plateforme/absences/jms/NotificationEvent.java:26-27 | an event with every field null |
| JmsEvents.NotificationEvent.WithContent | module-absences-notifications/src/main/java/com/plateforme/absences/jms/NotificationEvent.java:29-34 | the four-argument event holds recipient, type, subject and message, and nothing else |
| JmsEvents.NotificationEvent.SetDestinataireId | module-absences-notifications/src/main/java/com/plateforme/absences/jms/NotificationEvent.java:44-46 | the setter changes that field only |
| JmsEvents.NotificationEvent.SetExpediteurId | module-absences-notifications/src/main/java/com/plateforme/absences/jms/NotificationEvent.java:52-54 | the setter changes that field only |
| JmsEvents.NotificationEvent.SetType | module-absences-notifications/src/main/java/com/plateforme/absences/jms/NotificationEvent.java:60-62 | the setter changes that field only |
| JmsEvents.NotificationEvent.SetSujet | module-absences-notifications/src/main/java/com/plateforme/absences/jms/NotificationEvent.java:68-70 | the setter changes that field only |
| JmsEvents.NotificationEvent.SetMessage | module-absences-notifications/src/main/java/com/plateforme/absences/jms/NotificationEvent.java:76-78 | the setter changes that field only |
| JmsEvents.NotificationEvent.SetReferenceId | module-absences-notifications/src/main/java/com/plateforme/absences/jms/NotificationEvent.java:84-86 | the setter changes that field only |
| JmsEvents.NotificationEvent.SetTypeReference | module-absences-notifications/src/main/java/com/plateforme/absences/jms/NotificationEvent.java:92-94 | the setter changes that field only |
| JmsEvents.EventToString | module-absences-notifications/src/main/java/com/plateforme/absences/jms/NotificationEvent.java:96-103 | the text starts with the recipient and type and ends with the subject in quotes |
| JmsEvents.ToStringIgnoresHiddenFields | module-absences-notifications/src/main/java/com/plateforme/absences/jms/NotificationEvent.java:96-103 | two events that agree on recipient, type and subject print the same |
| JmsEvents.ToStringShowsRecipient | module-absences-notifications/src/main/java/com/plateforme/absences/jms/NotificationEvent.java:96-103 | events for different recipients never print the same |
| JmsEvents.LongStrHasNoComma | module-absences-notifications/src/main/java/com/plateforme/absences/jms/NotificationEvent.java:98 | a printed Long (or "null") contains no comma, so the recipient field ends at the first comma |
| JmsEvents.LongStrInjective | module-absences-notifications/src/main/java/com/plateforme/absences/jms/NotificationEvent.java:98 | distinct nullable Longs print differently |
| JmsEvents.IntToStringInjective | module-absences-notifications/src/main/java/com/plateforme/absences/jms/NotificationEvent.java:98 | distinct integers print differently |
| JmsEvents.NatToStringInjective | module-absences-notifications/src/main/java/com/plateforme/absences/jms/NotificationEvent.java:98 | distinct natural numbers print differently |
| JmsEvents.NatToStringLong | module-absences-notifications/src/main/java/com/plateforme/absences/jms/NotificationEvent.java:98 | a natural number prints as one character exactly when it is below 10 |
| JmsProducer.Sent | module-absences-notifications/src/main/java/com/plateforme/absences/jms/NotificationProducer.java:30-63 | one object message carrying the event reaches the queue exactly when no JMS call fails |
| JmsProducer.Escapes | module-absences-notifications/src/main/java/com/plateforme/absences/jms/NotificationProducer.java:36-62 | an exception leaves the send exactly when a broker call fails with an unchecked exception, and it is a runtime failure; a JMSException never leaves |
| JmsProducer.FinallyCorrected | module-absences-notifications/src/main/java/com/plateforme/absences/jms/NotificationProducer.java:54-62 | the cleanup closes the session exactly when it is open and the connection exactly when it is open, session first |
| JmsProducer.FinallyAsWrittenLeaksConnection | module-absences-notifications/src/main/java/com/plateforme/absences/jms/NotificationProducer.java:54-62 | as written, a session.close() that throws skips connection.close(); the corrected cleanup still closes the connection |
| JmsProducer.FinallyAgreesWithoutCloseFailure | module-absences-notifications/src/main/java/com/plateforme/absences/jms/NotificationProducer.java:54-62 | when session.close() does not throw, the cleanup as written and the corrected one make the same calls |
| JmsProducer.SendClosesWhatItOpens | module-absences-notifications/src/main/java/com/plateforme/absences/jms/NotificationProducer.java:30-63 | as written: every session opened is closed; the connection opened is closed exactly when closing the session does not throw; the message is sent exactly when nothing fails |
| JmsProducer.SendLeaksConnection | module-absences-notifications/src/main/java/com/plateforme/absences/jms/NotificationProducer.java:54-62 | a send that opened its session and whose session.close() throws leaves the connection open; the corrected cleanup closes it |
| JmsProducer.CorrectedSendClosesWhatItOpens | module-absences-notifications/src/main/java/com/plateforme/absences/jms/NotificationProducer.java:54-62 | with the corrected cleanup every connection and session opened is closed, the connection last |
| JmsProducer.AbsenceEvent | module-absences-notifications/src/main/java/com/plateforme/absences/jms/NotificationProducer.java:68-81 | the absence event: type and reference type ABSENCE, reference the absence, sender the manager |
| JmsProducer.CongeApprouveEvent | module-absences-notifications/src/main/java/com/plateforme/absences/jms/NotificationProducer.java:86-98 | the approval event: type CONGE_APPROUVE, reference type DEMANDE_CONGE |
| JmsProducer.CongeRejeteEvent | module-absences-notifications/src/main/java/com/plateforme/absences/jms/NotificationProducer.java:103-116 | the rejection event: type CONGE_REJETE, and a message ending with the reason as given (null printed as "null") |
| JmsProducer.AbsenceEventMatchesService | module-absences-notifications/src/main/java/com/plateforme/absences/jms/NotificationProducer.java:68-81 | the queued absence event equals the notification the service builds directly from the same inputs |
| JmsProducer.CongeApprouveMatchesService | module-absences-notifications/src/main/java/com/plateforme/absences/jms/NotificationProducer.java:86-98 | the approval event equals the service's APPROUVE notification, whatever the comment |
| JmsProducer.CongeRejeteMatchesServiceIffReason | module-absences-notifications/src/main/java/com/plateforme/absences/jms/NotificationProducer.java:103-116 | the rejection event equals the service's REJETE notification exactly when a reason is given |
| JmsProducer.Broker.constructor | module-absences-notifications/src/main/java/com/plateforme/absences/jms/NotificationProducer.java:19-23 | an empty queue with no calls recorded |
| JmsProducer.NotificationProducer.constructor | module-absences-notifications/src/main/java/com/plateforme/absences/jms/NotificationProducer.java:19-23 | the producer is bound to its broker |
| JmsProducer.NotificationProducer.EnvoyerNotification | module-absences-notifications/src/main/java/com/plateforme/absences/jms/NotificationProducer.java:30-63 | the queue grows by the event exactly when nothing fails; the calls made are those of the try block and of the finally block as written, so a throwing session.close() skips connection.close(); only a runtime failure escapes |
| JmsProducer.NotificationProducer.EnvoyerNotificationAbsence | module-absences-notifications/src/main/java/com/plateforme/absences/jms/NotificationProducer.java:68-81 | sends the absence event, with the same calls and outcome as a plain send, cleanup as written |
| JmsProducer.NotificationProducer.EnvoyerNotificationCongeApprouve | module-absences-notifications/src/main/java/com/plateforme/absences/jms/NotificationProducer.java:86-98 | sends the approval event, with the same calls and outcome as a plain send, cleanup as written |
| JmsProducer.NotificationProducer.EnvoyerNotificationCongeRejete | module-absences-notifications/src/main/java/com/plateforme/absences/jms/NotificationProducer.java:103-116 | sends the rejection event, with the same calls and outcome as a plain send, cleanup as written |
| JmsConsumer.Delivered | module-absences-notifications/src/main/java/com/plateforme/absences/jms/NotificationMDB.java:46-77 | an event is delivered exactly when the message is an ObjectMessage holding a NotificationEvent |
| JmsConsumer.Handle | module-absences-notifications/src/main/java/com/plateforme/absences/jms/NotificationMDB.java:46-77 | stored under the next id exactly when an event arrives whose content is storable, its subject within 255 characters; other message kinds are unsupported; a null object fails with a NullPointerException; an unstorable one is a persistence failure |
| JmsConsumer.Stores | module-absences-notifications/src/main/java/com/plateforme/absences/jms/NotificationMDB.java:84-102 | at most one row is added: the event's content, unread, under the next id, exactly when its columns are set and fit |
| JmsConsumer.SentEventIsStored | module-absences-notifications/src/main/java/com/plateforme/absences/jms/NotificationMDB.java:84-102 | an event sent without failure whose columns are set and fit (subject within 255 characters) ends up as one new unread row with exactly the event's content |
| JmsConsumer.NotificationMDB.constructor | module-absences-notifications/src/main/java/com/plateforme/absences/jms/NotificationMDB.java:38-39 | the listener is bound to its notification service |
| JmsConsumer.NotificationMDB.OnMessage | module-absences-notifications/src/main/java/com/plateforme/absences/jms/NotificationMDB.java:46-77 | the outcome is Handle of the message, and the table grows by exactly the rows Stores gives |
| JmsConsumer.NotificationMDB.CreerNotification | module-absences-notifications/src/main/java/com/plateforme/absences/jms/NotificationMDB.java:84-102 | the event's seven fields are stored under the next id exactly when they are set and fit, the subject within 255 characters; otherwise the persistence failure is reported and nothing is stored |
| NotificationRest.ToDto | module-absences-notifications/src/main/java/com/plateforme/absences/dto/NotificationDTO.java:47-60 | the DTO copies every column and is recent exactly when sent less than a day before now |
| NotificationRest.BeanDto | module-absences-notifications/src/main/java/com/plateforme/absences/dto/NotificationDTO.java:47-60 | the DTO of a bean copies its content; a bean never sent is not recent |
| NotificationRest.FromDto | module-absences-notifications/src/main/java/com/plateforme/absences/dto/NotificationDTO.java:29-42 | a DTO reads back as a row with the same id, content and read flag |
| NotificationRest.DtoRoundTrip | module-absences-notifications/src/main/java/com/plateforme/absences/dto/NotificationDTO.java:47-60 | no column is lost: reading back the DTO of a row gives the row |
| NotificationRest.MapDtos | module-absences-notifications/src/main/java/com/plateforme/absences/rest/NotificationResource.java:55-57 | the list of DTOs is the rows' DTOs, in the same order |
| NotificationRest.Submitted | module-absences-notifications/src/main/java/com/plateforme/absences/rest/NotificationResource.java:199-206 | the bean persisted by POST has the request's content without its reference fields |
| NotificationRest.CreateRejection | module-absences-notifications/src/main/java/com/plateforme/absences/rest/NotificationResource.java:175-197 | the request passes exactly when recipient, type, subject and message are present and not blank; a missing recipient is reported first |
| NotificationRest.AcceptedIsStoredUnlessTooLong | module-absences-notifications/src/main/java/com/plateforme/absences/rest/NotificationResource.java:169-226 | a request that passes validation is stored exactly when its type fits the 50-character column and its subject the 255-character one |
| NotificationRest.CreatedDto | module-absences-notifications/src/main/java/com/plateforme/absences/rest/NotificationResource.java:216-218 | the created DTO carries the new id and the request's content, unread and recent |
| NotificationRest.CopyReference | module-absences-notifications/src/main/java/com/plateforme/absences/rest/NotificationResource.java:208-214 | the reference fields of the request are copied onto the returned bean only when present |
| NotificationRest.NotificationResource.constructor | module-absences-notifications/src/main/java/com/plateforme/absences/rest/NotificationResource.java:36-37 | the resource is bound to its notification service |
| NotificationRest.NotificationResource.FindByDestinataire | module-absences-notifications/src/main/java/com/plateforme/absences/rest/NotificationResource.java:43-67 | 400 without userId; otherwise 200 with the recipient's DTOs, newest first |
| NotificationRest.NotificationResource.FindNonLues | module-absences-notifications/src/main/java/com/plateforme/absences/rest/NotificationResource.java:73-98 | 400 without userId; otherwise 200 with the unread DTOs |
| NotificationRest.NotificationResource.CountNonLues | module-absences-notifications/src/main/java/com/plateforme/absences/rest/NotificationResource.java:104-126 | 400 without userId; otherwise 200 with the unread count |
| NotificationRest.NotificationResource.FindById | module-absences-notifications/src/main/java/com/plateforme/absences/rest/NotificationResource.java:132-154 | 404 for an unknown id; otherwise 200 with that notification's DTO |
| NotificationRest.NotificationResource.Create | module-absences-notifications/src/main/java/com/plateforme/absences/rest/NotificationResource.java:169-226 | 400 with the first failed check; 500 and nothing stored when the persist fails, a subject over 255 characters included; otherwise 201 with the created DTO and one new row |
| NotificationRest.NotificationResource.CreateValidated | module-absences-notifications/src/main/java/com/plateforme/absences/rest/NotificationResource.java:199-225 | after validation: 500 and nothing stored when the persist fails (a type over 50 or a subject over 255 characters), else 201 and the row appended |
| NotificationRest.NotificationResource.MarquerCommeLue | module-absences-notifications/src/main/java/com/plateforme/absences/rest/NotificationResource.java:232-254 | 404 for an unknown id; otherwise 200 with the read notification; the table is marked as the service promises |
| NotificationRest.NotificationResource.MarquerToutesCommeLues | module-absences-notifications/src/main/java/com/plateforme/absences/rest/NotificationResource.java:260-282 | 400 and no change without userId; otherwise all the user's notifications are read and the count is reported |
| NotificationRest.NotificationResource.Delete | module-absences-notifications/src/main/java/com/plateforme/absences/rest/NotificationResource.java:288-310 | the row is removed; 404 when it did not exist, 200 when it did |
| NotificationRest.NotificationResource.GetStatistiques | module-absences-notifications/src/main/java/com/plateforme/absences/rest/NotificationResource.java:316-343 | 400 without userId; otherwise 200 with total, unread and read counts |
| Dates.KeyInjective | module-absences-notifications/src/main/java/com/plateforme/absences/entities/Absence.java:49-50 | the day number of a valid date is injective and orders dates chronologically (year, month, day) |
| Dates.Pad2 | module-absences-notifications/src/main/java/com/plateforme/absences/services/AbsenceService.java:103 | two characters |
| Dates.Pad4 | module-absences-notifications/src/main/java/com/plateforme/absences/services/AbsenceService.java:103 | four characters |
| Dates.ToIsoString | module-absences-notifications/src/main/java/com/plateforme/absences/services/AbsenceService.java:103 | LocalDate.toString() is ten characters with dashes at positions 4 and 7 |
| Dates.ParseIsoDate | module-absences-notifications/src/main/java/com/plateforme/absences/rest/AbsenceResource.java:163-164 | LocalDate.parse yields only valid calendar dates |
| Dates.Pad2Digits | module-absences-notifications/src/main/java/com/plateforme/absences/services/AbsenceService.java:103 | the two padded digits read back as the number |
| Dates.Pad4Digits | module-absences-notifications/src/main/java/com/plateforme/absences/services/AbsenceService.java:103 | the four padded digits read back as the number |
| Dates.DigitsValueSlice | module-absences-notifications/src/main/java/com/plateforme/absences/rest/AbsenceResource.java:163-164 | copying digits to another string keeps their value |
| Dates.ParseToIsoString | module-absences-notifications/src/main/java/com/plateforme/absences/rest/AbsenceResource.java:163-164 | parse(toString(d)) == d for every valid date |
| Dates.ToIsoStringOfParse | module-absences-notifications/src/main/java/com/plateforme/absences/rest/AbsenceResource.java:163-164 | toString(parse(s)) == s for every string that parses |
| Dates.DigitsValue2 | module-absences-notifications/src/main/java/com/plateforme/absences/rest/AbsenceResource.java:163-164 | two digits read between 0 and 99 |
| Dates.DigitsValue4 | module-absences-notifications/src/main/java/com/plateforme/absences/rest/AbsenceResource.java:163-164 | four digits read between 0 and 9999 |
| Sorting.Insert | module-absences-notifications/src/main/java/com/plateforme/absences/entities/Absence.java:19 | inserting adds exactly the element |
| Sorting.SortBy | module-absences-notifications/src/main/java/com/plateforme/absences/entities/Absence.java:19 | sorting permutes the rows |
| Sorting.InsertSorted | module-absences-notifications/src/main/java/com/plateforme/absences/entities/Absence.java:19 | inserting into an ordered list keeps it ordered |
| Sorting.SortBySorted | module-absences-notifications/src/main/java/com/plateforme/absences/entities/Absence.java:19 | under a total preorder the result is ordered |
| Sorting.SortedFilterMembers | module-absences-notifications/src/main/java/com/plateforme/absences/entities/Absence.java:17-20 | a sorted WHERE clause returns exactly the rows that satisfy it |
| Sorting.LexTotal | module-absences-notifications/src/main/java/com/plateforme/absences/entities/TypeAbsence.java:16 | any two names are comparable |
| Sorting.LexTransitive | module-absences-notifications/src/main/java/com/plateforme/absences/entities/TypeAbsence.java:16 | the name order is transitive |
| Sorting.LexAntisymmetric | module-absences-notifications/src/main/java/com/plateforme/absences/entities/TypeAbsence.java:16 | two names each no greater than the other are equal |
| AbsenceEntity.NewTypeRow | module-absences-notifications/src/main/java/com/plateforme/absences/entities/TypeAbsence.java:27-41 | a persisted type keeps the bean's three fields, with the id and creation date given |
| AbsenceEntity.FindType | src/main/java/com/plateforme/absences/services/TypeAbsenceService.java:38-41 | the type with that id, or nothing exactly when there is none |
| AbsenceEntity.NomAscTotal | module-absences-notifications/src/main/java/com/plateforme/absences/entities/TypeAbsence.java:16 | ORDER BY t.nom is a total preorder |
| AbsenceEntity.TypeAbsence.constructor | module-absences-notifications/src/main/java/com/plateforme/absences/entities/TypeAbsence.java:37-45 | the empty type requires a justification by default |
| AbsenceEntity.TypeAbsence.WithFields | module-absences-notifications/src/main/java/com/plateforme/absences/entities/TypeAbsence.java:47-51 | the three-argument type holds exactly the values passed, null flag included |
| AbsenceEntity.TypeAbsence.Loaded | module-absences-notifications/src/main/java/com/plateforme/absences/entities/TypeAbsence.java:53-59 | the bean loaded from a row holds the row's fields, id and creation date |
| AbsenceEntity.TypeAbsence.OnCreate | module-absences-notifications/src/main/java/com/plateforme/absences/entities/TypeAbsence.java:62-65 | @PrePersist stamps dateCreation with now |
| AbsenceEntity.NewAbsenceRow | module-absences-notifications/src/main/java/com/plateforme/absences/entities/Absence.java:38-77 | a persisted absence keeps the bean's eleven fields, with the id and creation date given |
| AbsenceEntity.AbsenceRowRoundTrip | module-absences-notifications/src/main/java/com/plateforme/absences/entities/Absence.java:90-103 | rebuilding a row from its own fields gives the row back |
| AbsenceEntity.Absence.constructor | module-absences-notifications/src/main/java/com/plateforme/absences/entities/Absence.java:64-81 | the empty absence is EN_ATTENTE and not justified |
| AbsenceEntity.Absence.WithType | module-absences-notifications/src/main/java/com/plateforme/absences/entities/Absence.java:83-88 | employee, type and date as given, not justified, EN_ATTENTE |
| AbsenceEntity.Absence.Full | module-absences-notifications/src/main/java/com/plateforme/absences/entities/Absence.java:90-103 | the all-fields constructor holds the values passed, statut keeping its default |
| AbsenceEntity.Absence.Loaded | module-absences-notifications/src/main/java/com/plateforme/absences/entities/Absence.java:90-103 | the bean loaded from a row holds the row's fields, id and creation date |
| AbsenceEntity.Absence.OnCreate | module-absences-notifications/src/main/java/com/plateforme/absences/entities/Absence.java:106-109 | @PrePersist stamps dateCreation with now |
| AbsenceEntity.FindAbsence | module-absences-notifications/src/main/java/com/plateforme/absences/services/AbsenceService.java:41-44 | the absence with that id, or nothing exactly when there is none |
| AbsenceEntity.DateOrdersTotal | module-absences-notifications/src/main/java/com/plateforme/absences/entities/Absence.java:19-23 | ORDER BY dateAbsence, ascending and descending, are total preorders |
| AbsenceStore.FindAll | module-absences-notifications/src/main/java/com/plateforme/absences/services/AbsenceService.java:32-36 | every absence, each exactly once, dateAbsence descending |
| AbsenceStore.FindByEmploye | module-absences-notifications/src/main/java/com/plateforme/absences/services/AbsenceService.java:49-54 | exactly the employee's absences, dateAbsence descending |
| AbsenceStore.FindByPeriode | module-absences-notifications/src/main/java/com/plateforme/absences/services/AbsenceService.java:59-65 | exactly the absences dated from debut to fin inclusive, oldest first |
| AbsenceStore.EmptyPeriode | module-absences-notifications/src/main/java/com/plateforme/absences/entities/Absence.java:23 | a period that ends before it starts selects nothing |
| AbsenceStore.FindByEquipe | module-absences-notifications/src/main/java/com/plateforme/absences/services/AbsenceService.java:70-75 | exactly the absences of the listed employees, dateAbsence descending |
| AbsenceStore.EquipeOfOne | module-absences-notifications/src/main/java/com/plateforme/absences/entities/Absence.java:17-32 | a team of one sees exactly that employee's absences |
| AbsenceStore.FindNonJustifiees | module-absences-notifications/src/main/java/com/plateforme/absences/services/AbsenceService.java:80-84 | exactly the unjustified absences whose type requires a justification |
| AbsenceStore.NullFlagHidesAbsences | module-absences-notifications/src/main/java/com/plateforme/absences/entities/Absence.java:27 | an absence whose type has a null justification flag never appears as unjustified |
| AbsenceStore.JustifiedLeavesList | module-absences-notifications/src/main/java/com/plateforme/absences/services/AbsenceService.java:135-144 | a justified absence leaves the unjustified list |
| AbsenceStore.FindAllTypes | module-absences-notifications/src/main/java/com/plateforme/absences/entities/TypeAbsence.java:14-17 | every type exactly once, ordered by name |
| AbsenceStore.FindTypeByNom | src/main/java/com/plateforme/absences/services/TypeAbsenceService.java:46-52 | the type with that name, or null exactly when none has it |
| AbsenceStore.FindTypeByNomUnique | module-absences-notifications/src/main/java/com/plateforme/absences/entities/TypeAbsence.java:31-32 | with unique names, looking up a stored type's name finds that type |
| AbsenceStore.Justify | module-absences-notifications/src/main/java/com/plateforme/absences/services/AbsenceService.java:135-144 | justifiee becomes true and the document is set; nothing else changes |
| AbsenceStore.JustifiedBean | module-absences-notifications/src/main/java/com/plateforme/absences/services/AbsenceService.java:139-141 | the justified row is what the merged bean stores |
| AbsenceStore.ReplaceKeyed | module-absences-notifications/src/main/java/com/plateforme/absences/services/AbsenceService.java:116-119 | a merge keeps every id where it was |
| AbsenceStore.ReplaceFinds | module-absences-notifications/src/main/java/com/plateforme/absences/services/AbsenceService.java:116-119 | after a merge the id finds the merged row |
| AbsenceStore.ReplaceTypeKeyed | src/main/java/com/plateforme/absences/services/TypeAbsenceService.java:66-69 | a merge of a type keeps ids and name uniqueness when the new name is free |
| AbsenceStore.SameIdsKeepForeignKeys | module-absences-notifications/src/main/java/com/plateforme/absences/entities/Absence.java:45-47 | changing types without changing their ids keeps every absence's type reference valid |
| AbsenceStore.StoredHasType | module-absences-notifications/src/main/java/com/plateforme/absences/entities/Absence.java:45-47 | every stored absence has its type |
| AbsenceStore.AppendAbsenceKeepsKeys | module-absences-notifications/src/main/java/com/plateforme/absences/services/AbsenceService.java:89-111 | a persist with an existing type keeps the keys and the foreign key |
| AbsenceStore.ReplaceAbsenceKeepsKeys | module-absences-notifications/src/main/java/com/plateforme/absences/services/AbsenceService.java:116-119 | a merge with an existing type keeps the keys and the foreign key |
| AbsenceStore.AppendTypeKeepsKeys | src/main/java/com/plateforme/absences/services/TypeAbsenceService.java:57-61 | adding a type with a fresh name keeps keys and name uniqueness |
| AbsenceStore.RemoveTypeKeepsKeys | src/main/java/com/plateforme/absences/services/TypeAbsenceService.java:74-80 | removing an unused type keeps every absence's type reference valid |
| AbsenceStore.InsertAbsenceConsistent | module-absences-notifications/src/main/java/com/plateforme/absences/services/AbsenceService.java:89-111 | inserting an absence under the next id with an existing type keeps the database consistent |
| AbsenceStore.RollbackConsistent | module-absences-notifications/src/main/java/com/plateforme/absences/services/AbsenceService.java:89-111 | a rolled-back insert leaves the database consistent, with the identity value consumed |
| AbsenceStore.UpdateAbsenceConsistent | module-absences-notifications/src/main/java/com/plateforme/absences/services/AbsenceService.java:116-119 | replacing a stored absence keeps the database consistent and the row findable |
| AbsenceStore.DeleteAbsenceConsistent | module-absences-notifications/src/main/java/com/plateforme/absences/services/AbsenceService.java:124-130 | deleting an absence keeps the database consistent and leaves no row with that id |
| AbsenceStore.InsertTypeConsistent | src/main/java/com/plateforme/absences/services/TypeAbsenceService.java:57-61 | inserting a type with a fresh name under the next id keeps the database consistent |
| AbsenceStore.UpdateTypeConsistent | src/main/java/com/plateforme/absences/services/TypeAbsenceService.java:66-69 | replacing a type whose name stays unique keeps the database consistent |
| AbsenceStore.UnknownTypeUnused | module-absences-notifications/src/main/java/com/plateforme/absences/entities/Absence.java:45-47 | no absence refers to a type that does not exist |
| AbsenceStore.DeleteTypeConsistent | src/main/java/com/plateforme/absences/services/TypeAbsenceService.java:74-80 | deleting an unused type keeps the database consistent and leaves no type with that id |
| AbsenceStore.CreationNotice | module-absences-notifications/src/main/java/com/plateforme/absences/services/AbsenceService.java:98-104 | the notice sent on creation goes to the employee, from the recorder, about the new absence, and is storable |
| AbsenceStore.CreatedAbsenceReachesEmployee | module-absences-notifications/src/main/java/com/plateforme/absences/services/AbsenceService.java:89-111 | without a JMS failure, creating an absence leaves exactly one new unread notification for the employee |
| AbsenceStore.AbsenceDatabase.constructor | module-absences-notifications/src/main/java/com/plateforme/absences/services/AbsenceService.java:23-24 | empty tables, both counters at 1 |
| AbsenceStore.AbsenceDatabase.AdvanceClock | module-absences-notifications/src/main/java/com/plateforme/absences/entities/Absence.java:106-109 | the clock moves to now and the database stays consistent |
| AbsenceStore.MarkJustified | module-absences-notifications/src/main/java/com/plateforme/absences/services/AbsenceService.java:139-140 | the bean becomes justified with the document path; nothing else changes |
| AbsenceStore.AbsenceService.constructor | module-absences-notifications/src/main/java/com/plateforme/absences/services/AbsenceService.java:23-27 | the service is bound to its database and producer |
| AbsenceStore.AbsenceService.FindById | module-absences-notifications/src/main/java/com/plateforme/absences/services/AbsenceService.java:41-44 | null exactly when the id is unknown; otherwise a fresh bean holding that row |
| AbsenceStore.AbsenceService.Create | module-absences-notifications/src/main/java/com/plateforme/absences/services/AbsenceService.java:89-111 | succeeds exactly for a new bean that is storable and whose type exists; it takes the next id and the absence event is sent, cleanup as written; the row stays stored unless an unchecked exception left the producer, which rolls the insert back; on failure nothing changes |
| AbsenceStore.AbsenceService.Persist | module-absences-notifications/src/main/java/com/plateforme/absences/services/AbsenceService.java:93-94 | persist appends the bean's fields under the next id and gives the bean that id |
| AbsenceStore.AbsenceService.Update | module-absences-notifications/src/main/java/com/plateforme/absences/services/AbsenceService.java:116-119 | a merge with an id replaces that row exactly when it exists and the new fields are storable; without an id it inserts; on failure nothing changes |
| AbsenceStore.AbsenceService.Delete | module-absences-notifications/src/main/java/com/plateforme/absences/services/AbsenceService.java:124-130 | the absence is removed if present; every other absence remains |
| AbsenceStore.AbsenceService.Justifier | module-absences-notifications/src/main/java/com/plateforme/absences/services/AbsenceService.java:135-144 | unknown id: null and no change; otherwise the row is replaced by its justified copy, or nothing changes when that copy is not storable |
| AbsenceStore.TypeAbsenceService.constructor | src/main/java/com/plateforme/absences/services/TypeAbsenceService.java:23-24 | the service is bound to its database |
| AbsenceStore.TypeAbsenceService.FindById | src/main/java/com/plateforme/absences/services/TypeAbsenceService.java:38-41 | null exactly when the id is unknown; otherwise a fresh bean holding that type |
| AbsenceStore.TypeAbsenceService.Create | src/main/java/com/plateforme/absences/services/TypeAbsenceService.java:57-61 | succeeds exactly for a new bean whose name is set, fits and is not taken; it is appended under the next id |
| AbsenceStore.TypeAbsenceService.Update | src/main/java/com/plateforme/absences/services/TypeAbsenceService.java:66-69 | a merge replaces the type exactly when it exists and the new name is valid and free; on failure nothing changes |
| AbsenceStore.TypeAbsenceService.Delete | src/main/java/com/plateforme/absences/services/TypeAbsenceService.java:74-80 | a type still used by an absence is kept and a persistence failure reported; otherwise it is removed, and every other type remains |
| AbsenceRest.BeanDto | module-absences-notifications/src/main/java/com/plateforme/absences/dto/AbsenceDTO.java:53-68 | the DTO carries the bean's fields, id and creation date, plus the type's name when the type exists |
| AbsenceRest.RowDtoInjective | module-absences-notifications/src/main/java/com/plateforme/absences/dto/AbsenceDTO.java:53-68 | distinct rows give distinct DTOs |
| AbsenceRest.RowDtos | module-absences-notifications/src/main/java/com/plateforme/absences/rest/AbsenceResource.java:69-71 | the list of DTOs is the rows' DTOs, in the same order |
| AbsenceRest.CreateRejection | module-absences-notifications/src/main/java/com/plateforme/absences/rest/AbsenceResource.java:236-262 | the request passes exactly when employee, type and date are given and the type exists; the first missing item is reported |
| AbsenceRest.Defaulted | module-absences-notifications/src/main/java/com/plateforme/absences/rest/AbsenceResource.java:265-275 | the bean built by POST defaults the duration to 8 hours, justifiee to false and statut to EN_ATTENTE, and has no document |
| AbsenceRest.AcceptedIsStoredUnlessOverflow | module-absences-notifications/src/main/java/com/plateforme/absences/rest/AbsenceResource.java:232-291 | a request that passes validation is stored exactly when its column values fit |
| AbsenceRest.Merge | module-absences-notifications/src/main/java/com/plateforme/absences/rest/AbsenceResource.java:297-354 | an update changes only the fields the request gives; the type changes only to an existing one; id, employee, statut and recorder never change |
| AbsenceRest.MergeStored | module-absences-notifications/src/main/java/com/plateforme/absences/rest/AbsenceResource.java:297-354 | the merged row is what the merged bean stores |
| AbsenceRest.MergeFieldsOfRow | module-absences-notifications/src/main/java/com/plateforme/absences/rest/AbsenceResource.java:311-341 | merging a row and merging its fields agree |
| AbsenceRest.MergeNothing | module-absences-notifications/src/main/java/com/plateforme/absences/rest/AbsenceResource.java:311-341 | an empty request changes nothing |
| AbsenceRest.MergeIdempotent | module-absences-notifications/src/main/java/com/plateforme/absences/rest/AbsenceResource.java:311-341 | applying the same update twice is the same as once |
| AbsenceRest.MergeKeepsForeignKey | module-absences-notifications/src/main/java/com/plateforme/absences/rest/AbsenceResource.java:312-317 | an update never points an absence at a missing type |
| AbsenceRest.NewBean | module-absences-notifications/src/main/java/com/plateforme/absences/rest/AbsenceResource.java:265-275 | the bean POST fills holds the defaulted fields and no id |
| AbsenceRest.ApplyDto | module-absences-notifications/src/main/java/com/plateforme/absences/rest/AbsenceResource.java:311-341 | the setters PUT runs leave the bean with the merged fields |
| AbsenceRest.AbsenceResource.constructor | module-absences-notifications/src/main/java/com/plateforme/absences/rest/AbsenceResource.java:44-51 | the resource is bound to its absence service |
| AbsenceRest.AbsenceResource.FindAll | module-absences-notifications/src/main/java/com/plateforme/absences/rest/AbsenceResource.java:57-81 | 403 unless MANAGER or ADMIN; otherwise 200 with every absence, newest first |
| AbsenceRest.AbsenceResource.FindById | module-absences-notifications/src/main/java/com/plateforme/absences/rest/AbsenceResource.java:87-109 | 404 for an unknown id; otherwise 200 with its DTO |
| AbsenceRest.AbsenceResource.FindByEmploye | module-absences-notifications/src/main/java/com/plateforme/absences/rest/AbsenceResource.java:115-134 | 200 with the employee's absences, newest first |
| AbsenceRest.AbsenceResource.FindByPeriode | module-absences-notifications/src/main/java/com/plateforme/absences/rest/AbsenceResource.java:140-183 | 403 unless MANAGER or ADMIN, 400 without both dates, 400 "Format de date invalide" for an unparseable date, otherwise 200 with the absences of the period |
| AbsenceRest.AbsenceResource.FindNonJustifiees | module-absences-notifications/src/main/java/com/plateforme/absences/rest/AbsenceResource.java:189-214 | 403 unless MANAGER or ADMIN; otherwise 200 with the unjustified absences |
| AbsenceRest.AbsenceResource.Create | module-absences-notifications/src/main/java/com/plateforme/absences/rest/AbsenceResource.java:232-291 | 400 and no change on the first failed check; 500 and no change when the persist fails; otherwise 201 with the new absence, which stays appended under the next id unless an unchecked exception of the send rolled it back |
| AbsenceRest.AbsenceResource.Update | module-absences-notifications/src/main/java/com/plateforme/absences/rest/AbsenceResource.java:297-354 | 404 and no change for an unknown id; otherwise the row becomes the merge of the request, or 500 and no change when it does not fit |
| AbsenceRest.AbsenceResource.Justifier | module-absences-notifications/src/main/java/com/plateforme/absences/rest/AbsenceResource.java:365-393 | 400 without a document, 404 for an unknown id, otherwise the row is justified with the document |
| AbsenceRest.AbsenceResource.Delete | module-absences-notifications/src/main/java/com/plateforme/absences/rest/AbsenceResource.java:399-423 | 404 for an unknown id; otherwise the absence is removed and 200 returned |
| TypeAbsenceRest.RequestFields | module-absences-notifications/src/main/java/com/plateforme/absences/rest/TypeAbsenceResource.java:105-108 | the bean takes the request's three fields, nulls included |
| TypeAbsenceRest.RowDto | module-absences-notifications/src/main/java/com/plateforme/absences/dto/TypeAbsenceDTO.java:29-34 | the DTO holds the type's id and its three fields |
| TypeAbsenceRest.RowDtoDeterminesRow | module-absences-notifications/src/main/java/com/plateforme/absences/dto/TypeAbsenceDTO.java:29-34 | two types with the same DTO differ at most in their creation date |
| TypeAbsenceRest.RowDtos | module-absences-notifications/src/main/java/com/plateforme/absences/rest/TypeAbsenceResource.java:46-48 | the list of DTOs is the types' DTOs, in the same order |
| TypeAbsenceRest.UnflaggedTypeHidesAbsences | module-absences-notifications/src/main/java/com/plateforme/absences/rest/TypeAbsenceResource.java:105-108 | a type created without the flag never makes an absence show as unjustified |
| TypeAbsenceRest.SetFields | module-absences-notifications/src/main/java/com/plateforme/absences/rest/TypeAbsenceResource.java:105-108 | the bean's three fields become the request's |
| TypeAbsenceRest.TypeAbsenceResource.constructor | module-absences-notifications/src/main/java/com/plateforme/absences/rest/TypeAbsenceResource.java:33-34 | the resource is bound to its type service |
| TypeAbsenceRest.TypeAbsenceResource.FindAll | module-absences-notifications/src/main/java/com/plateforme/absences/rest/TypeAbsenceResource.java:40-58 | 200 with every type, ordered by name |
| TypeAbsenceRest.TypeAbsenceResource.FindById | module-absences-notifications/src/main/java/com/plateforme/absences/rest/TypeAbsenceResource.java:64-86 | 404 for an unknown id; otherwise 200 with its DTO |
| TypeAbsenceRest.TypeAbsenceResource.Create | module-absences-notifications/src/main/java/com/plateforme/absences/rest/TypeAbsenceResource.java:92-123 | 400 without a name; 500 and no change when the name is too long or taken; otherwise 201 with the new type appended |
| TypeAbsenceRest.TypeAbsenceResource.Update | module-absences-notifications/src/main/java/com/plateforme/absences/rest/TypeAbsenceResource.java:129-158 | 404 for an unknown id; 500 and no change when the name is invalid or taken; otherwise the type is replaced |
| TypeAbsenceRest.TypeAbsenceResource.Delete | module-absences-notifications/src/main/java/com/plateforme/absences/rest/TypeAbsenceResource.java:164-188 | 404 for an unknown id; 500 and no change while an absence uses it; otherwise it is removed |
| AuthSecurity.TokenClaims | module-authentification/src/main/java/com/plateforme/auth/services/SecurityService.java:44-56 | the token names the user, the role and the id, and expires 24 hours after it is issued |
| AuthSecurity.BearerToken | module-authentification/src/main/java/com/plateforme/auth/security/JwtAuthenticationFilter.java:27-35 | a token is read exactly when the header starts with "Bearer ", and it is the rest of the header |
| AuthSecurity.BearerTokenOfHeader | module-authentification/src/main/java/com/plateforme/auth/security/JwtAuthenticationFilter.java:30-35 | the token in "Bearer " + t is t |
| AuthSecurity.LowerCaseSchemeNotRead | module-authentification/src/main/java/com/plateforme/auth/security/JwtAuthenticationFilter.java:30 | the prefix test is case-sensitive: "bearer " is not read |
| AuthSecurity.PrincipalName | module-authentification/src/main/java/com/plateforme/auth/security/JwtAuthenticationFilter.java:48-50 | the principal is the token's subject |
| AuthSecurity.IsUserInRole | module-authentification/src/main/java/com/plateforme/auth/security/JwtAuthenticationFilter.java:53-55 | a null role throws; otherwise true exactly when the names are equal ignoring case |
| AuthSecurity.RoleCheckSymmetric | module-authentification/src/main/java/com/plateforme/auth/security/JwtAuthenticationFilter.java:53-55 | a user is in their own role, and the case-insensitive check is symmetric |
| AuthSecurity.LowerCaseAdminIsAdmin | module-authentification/src/main/java/com/plateforme/auth/security/JwtAuthenticationFilter.java:53-55 | a token with role "admin" passes a check for "ADMIN" |
| AuthSecurity.Authenticated | module-authentification/src/main/java/com/plateforme/auth/security/JwtAuthenticationFilter.java:46-66 | the corrected context names the subject and role and answers isSecure when the original does |
| AuthSecurity.AuthenticatedAsWritten | module-authentification/src/main/java/com/plateforme/auth/security/JwtAuthenticationFilter.java:46-66 | the context the filter installs names the subject and role, and its isSecure asks the current context, so it is not grounded |
| AuthSecurity.AsWrittenIsSecureNeverAnswers | module-authentification/src/main/java/com/plateforme/auth/security/JwtAuthenticationFilter.java:57-60 | as written, isSecure() on the installed context asks itself and never answers, whatever the depth allowed |
| AuthSecurity.GroundedAnswers | module-authentification/src/main/java/com/plateforme/auth/security/JwtAuthenticationFilter.java:57-60 | a context that delegates to the container's answers isSecure at any depth |
| AuthSecurity.CorrectedIsSecureAnswers | module-authentification/src/main/java/com/plateforme/auth/security/JwtAuthenticationFilter.java:57-60 | the corrected context answers isSecure with the container's answer |
| AuthSecurity.Decide | module-authentification/src/main/java/com/plateforme/auth/security/JwtAuthenticationFilter.java:24-74 | no bearer token: pass through; an invalid token: 401 "Token invalide ou expiré"; a valid one: authenticate as its subject with its role |
| AuthSecurity.RequestContext.constructor | module-authentification/src/main/java/com/plateforme/auth/security/JwtAuthenticationFilter.java:25-27 | a request with its header and security context, not aborted |
| AuthSecurity.JwtAuthenticationFilter.constructor | module-authentification/src/main/java/com/plateforme/auth/security/JwtAuthenticationFilter.java:21-22 | the filter is bound to its security service |
| AuthSecurity.JwtAuthenticationFilter.Filter | module-authentification/src/main/java/com/plateforme/auth/security/JwtAuthenticationFilter.java:24-74 | the request is left alone, aborted or given the context as written, as Decide says; the new context is grounded exactly when the old one was and no token authenticated the request |
| AuthUsers.NewUser | module-authentification/src/main/java/com/plateforme/auth/entities/Utilisateur.java:15-34 | a persisted user keeps the bean's five fields, with the id and dates given |
| AuthUsers.Utilisateur.constructor | module-authentification/src/main/java/com/plateforme/auth/entities/Utilisateur.java:27-28 | a new user is active and has no id or dates |
| AuthUsers.Utilisateur.Loaded | module-authentification/src/main/java/com/plateforme/auth/entities/Utilisateur.java:15-34 | the bean loaded from a row holds the row's fields, id and dates |
| AuthUsers.SetMotDePasse | module-authentification/src/main/java/com/plateforme/auth/services/UtilisateurService.java:68-69 | only the password changes |
| AuthUsers.RehashedRow | module-authentification/src/main/java/com/plateforme/auth/services/UtilisateurService.java:65-73 | a new hash keeps a row storable, and the merged row differs from the stored one only in password and modification time |
| AuthUsers.FindUser | module-authentification/src/main/java/com/plateforme/auth/services/UtilisateurService.java:31-33 | the user with that id, or nothing exactly when there is none |
| AuthUsers.FindByUsername | module-authentification/src/main/java/com/plateforme/auth/services/UtilisateurService.java:38-46 | a user is found exactly when exactly one has the name |
| AuthUsers.CountNone | module-authentification/src/main/java/com/plateforme/auth/services/UtilisateurService.java:38-46 | no match counts 0 |
| AuthUsers.NameCount | module-authentification/src/main/java/com/plateforme/auth/entities/Utilisateur.java:15-16 | with unique names, a name occurs at most once, and once when present |
| AuthUsers.FindByUsernameUnique | module-authentification/src/main/java/com/plateforme/auth/services/UtilisateurService.java:38-46 | with unique names, looking up a user's name finds that user |
| AuthUsers.FindByUsernameAbsent | module-authentification/src/main/java/com/plateforme/auth/services/UtilisateurService.java:38-46 | an unused name finds nobody |
| AuthUsers.Login | module-authentification/src/main/java/com/plateforme/auth/services/AuthentificationService.java:19-27 | a token is issued only for a found, active user whose password checks, and names that user |
| AuthUsers.LoginUnknownUser | module-authentification/src/main/java/com/plateforme/auth/services/AuthentificationService.java:19-27 | an unknown name gets no token |
| AuthUsers.LoginInactiveUser | module-authentification/src/main/java/com/plateforme/auth/services/AuthentificationService.java:19-27 | an inactive user gets no token |
| AuthUsers.LoginWrongPassword | module-authentification/src/main/java/com/plateforme/auth/services/AuthentificationService.java:19-27 | a wrong password gets no token |
| AuthUsers.LoginSucceeds | module-authentification/src/main/java/com/plateforme/auth/services/AuthentificationService.java:19-27 | an active user with the right password gets the token of their name, role and id |
| AuthUsers.LoginThenFilter | module-authentification/src/main/java/com/plateforme/auth/security/JwtAuthenticationFilter.java:24-74 | the token from a successful login, sent as a bearer header while valid, authenticates that user: the installed context names the user and passes the check for their role |
| AuthUsers.AppendUserKeepsKeys | module-authentification/src/main/java/com/plateforme/auth/services/UtilisateurService.java:22-26 | adding a user with fresh keys under the next id keeps ids increasing and names and e-mails unique |
| AuthUsers.ReplaceUserPairwise | module-authentification/src/main/java/com/plateforme/auth/services/UtilisateurService.java:58-60 | replacing a user with free keys keeps names and e-mails unique |
| AuthUsers.ReplaceUserKeepsKeys | module-authentification/src/main/java/com/plateforme/auth/services/UtilisateurService.java:58-60 | a merge with free keys keeps the table keyed and finds the new row |
| AuthUsers.RehashKeepsKeys | module-authentification/src/main/java/com/plateforme/auth/services/UtilisateurService.java:65-73 | changing only the password keeps the table keyed and finds the new row |
| AuthUsers.ReplaceUserFinds | module-authentification/src/main/java/com/plateforme/auth/services/UtilisateurService.java:58-60 | after a merge the id finds the merged row |
| AuthUsers.RemoveUserKeepsKeys | module-authentification/src/main/java/com/plateforme/auth/services/UtilisateurService.java:78-83 | removing a user keeps the table keyed and leaves no user with that id |
| AuthUsers.UtilisateurService.constructor | module-authentification/src/main/java/com/plateforme/auth/services/UtilisateurService.java:13-17 | an empty table with the counter at 1 |
| AuthUsers.UtilisateurService.Create | module-authentification/src/main/java/com/plateforme/auth/services/UtilisateurService.java:22-26 | the password is replaced by its hash; a null password throws; the user is stored exactly when new, storable and with free keys, and the stored hash is that of the password given |
| AuthUsers.UtilisateurService.FindById | module-authentification/src/main/java/com/plateforme/auth/services/UtilisateurService.java:31-33 | null exactly when the id is unknown; otherwise a fresh bean holding that user |
| AuthUsers.UtilisateurService.Update | module-authentification/src/main/java/com/plateforme/auth/services/UtilisateurService.java:58-60 | a merge replaces the user exactly when it exists and the new fields are storable with free keys; on failure nothing changes |
| AuthUsers.UtilisateurService.ChangePassword | module-authentification/src/main/java/com/plateforme/auth/services/UtilisateurService.java:65-73 | true exactly when the user exists; then only its hash and modification time change |
| AuthUsers.UtilisateurService.Delete | module-authentification/src/main/java/com/plateforme/auth/services/UtilisateurService.java:78-83 | the user is removed if present; every other user remains |
| AuthRest.Failure | module-authentification/src/main/java/com/plateforme/auth/rest/UtilisateurResource.java:33-35 | an exception becomes a bodiless 500 |
| AuthRest.BeanResponse | module-authentification/src/main/java/com/plateforme/auth/dto/UserResponse.java:17-24 | the response of a bean has its id, name, e-mail, role, flag and creation date |
| AuthRest.RowResponse | module-authentification/src/main/java/com/plateforme/auth/dto/UserResponse.java:17-24 | the response of a stored user has the same visible fields |
| AuthRest.RowResponseHidesPassword | module-authentification/src/main/java/com/plateforme/auth/dto/UserResponse.java:17-24 | two users have the same response exactly when they differ only in password and modification time |
| AuthRest.RowResponses | module-authentification/src/main/java/com/plateforme/auth/rest/UtilisateurResource.java:25-27 | the responses of the users, in order |
| AuthRest.UpdatedFields | module-authentification/src/main/java/com/plateforme/auth/rest/UtilisateurResource.java:55-57 | the update keeps the stored password and takes every other field from the request |
| AuthRest.UtilisateurResource.constructor | module-authentification/src/main/java/com/plateforme/auth/rest/UtilisateurResource.java:19-20 | the resource is bound to its user service |
| AuthRest.UtilisateurResource.GetAll | module-authentification/src/main/java/com/plateforme/auth/rest/UtilisateurResource.java:22-29 | 200 with every user, without passwords |
| AuthRest.UtilisateurResource.Create | module-authentification/src/main/java/com/plateforme/auth/rest/UtilisateurResource.java:31-36 | 201 with the new row, whose stored password is the hash of the one sent; 500 and no change when the persist fails |
| AuthRest.UtilisateurResource.GetById | module-authentification/src/main/java/com/plateforme/auth/rest/UtilisateurResource.java:38-46 | a bare 404 for an unknown id; otherwise 200 with the user |
| AuthRest.UtilisateurResource.Update | module-authentification/src/main/java/com/plateforme/auth/rest/UtilisateurResource.java:48-60 | 404 for an unknown id; otherwise the row is replaced with the stored password and creation date kept, or 500 and no change |
| AuthRest.UtilisateurResource.Delete | module-authentification/src/main/java/com/plateforme/auth/rest/UtilisateurResource.java:62-68 | always 204; afterwards no user has that id and the others remain |
| AuthRest.UtilisateurResource.ChangePassword | module-authentification/src/main/java/com/plateforme/auth/rest/UtilisateurResource.java:70-77 | 404 and no change for an unknown id; otherwise 200 and only the hash and modification time change |
| Common.TrimEmptyIffAllSpace | module-absences-notifications/src/main/java/com/plateforme/absences/rest/NotificationResource.java:181 | a string trims to empty exactly when it is all white space, the blank test of the REST checks |
| Common.TrimStart | module-absences-notifications/src/main/java/com/plateforme/absences/rest/NotificationResource.java:181 | String.trim() from the left: the result is a suffix of the input, everything dropped is white space, and what is left starts with a non-space |
| Common.TrimEnd | module-absences-notifications/src/main/java/com/plateforme/absences/rest/NotificationResource.java:181 | String.trim() from the right: the result is a prefix of the input, everything dropped is white space, and what is left ends with a non-space |
| Common.NatToString | module-absences-notifications/src/main/java/com/plateforme/absences/jms/NotificationEvent.java:98 | Long.toString of a non-negative number is a non-empty string of decimal digits |
| Common.FilterReverse | module-absences-notifications/src/main/java/com/plateforme/absences/entities/Notification.java:16 | filtering a newest-first list equals reversing the filtered table |

## Left out

- Container transactions, connection pooling, JNDI lookups and logging are not modelled. Each service method is one atomic step that either succeeds or leaves the tables unchanged.
- JMS infrastructure: the broker is a queue and a record of calls. Where it fails is a parameter of each send, not something the model discovers.
- Messages, not exceptions: the exception texts that reach a 500 response are a parameter of the endpoint.
- Time: a clock advanced by the caller. It counts seconds in the notification and absence modules, and milliseconds for tokens, as SecurityService does. `CURRENT_TIMESTAMP - 1` and `- 30` are read as 24 hours and 30 days, as the doc comments of findRecentes and deleteAnciennesNotificationsLues say.
- LocalDate is modelled only for years 0000 to 9999, the four-digit form `toString` prints. LocalTime values are opaque numbers, and BigDecimal durations are hundredths of an hour.
- String collation is the character-code order. The database's collation for `ORDER BY t.nom` is not modelled.
- Rows with equal sort keys keep table order. The database leaves that order unspecified.
- module-absences-notifications/src/main/java/com/plateforme/absences/services/TypeAbsenceService.java is not part of this model. TypeAbsenceService is modelled from the copy at src/main/java/com/plateforme/absences/services/TypeAbsenceService.java, whose finders, persist, merge and remove are cited instead.
- Null request bodies are not modelled. Each endpoint receives a body whose fields may be null.
- `@RolesAllowed("ADMIN")` on UtilisateurResource is enforced by the container, so it is not modelled. The resource methods are modelled as if the caller was admitted. Only the explicit `isUserInRole` checks of AbsenceResource are modelled.
- BCrypt and JWT are uninterpreted: `hashpw`, the signer and the parser are functions of the security service. The random salt is a parameter. The length of the password hash column is not checked.
- AuthSecurity.IsUserInRole: the case-insensitive comparison folds ASCII letters only. Java's `equalsIgnoreCase` also folds other letters, so a stored role "ADMıN" (dotless i) passes `isUserInRole("ADMIN")` in Java but not in the model.
- The container's own `isSecure` answer is a boolean of the original security context.
- `findAll` of users returns table order, since its query has no ORDER BY.
- `findByUsername`: a `NonUniqueResultException` and a missing user are both modelled as null. The unique constraint makes the former unreachable in a consistent table.
- A merge (`em.merge`) of a bean whose id is not in the table is modelled as a persistence failure. A JPA provider may instead insert a copy under a new id. Every REST endpoint looks the id up before merging, so none of them reaches this case.
- AbsenceStore.AbsenceService.Justifier: states the new table and result but not that the id then finds the justified row. AbsenceStore.UpdateAbsenceConsistent proves that separately.
- Modification dates: @PreUpdate on Utilisateur stamps dateModification on every successful merge. JPA runs that callback only when the flush finds the entity changed; the model does not track that, so it stamps the date even for a merge that changes no field. The Absence entity has no @PreUpdate, so a merged absence gets no new date.
- The user update response echoes the request's dateCreation, as the Java code does, although the stored creation date does not change; the model keeps that echo.
- NotificationStore.NotificationService.DeleteByDestinataire: states its count as the number of the recipient's rows, not as the length of `findByDestinataire`. NotificationStore.FindByDestinataire proves the two equal.
- The notification queue's redelivery, acknowledgement modes and the message-driven bean's pool are not modelled: one message is handled at a time.

## Findings

| source | as written | input that shows it | evidently intended | confidence | as-written member | corrected member |
|---|---|---|---|---|---|---|
| module-authentification/src/main/java/com/plateforme/auth/security/JwtAuthenticationFilter.java:57-60 | the installed context's `isSecure()` calls `requestContext.getSecurityContext().isSecure()`, and the request's context is by then that same object | any request with a valid bearer token whose handler asks `isSecure()` | answer with the original context's `isSecure()`, captured before replacing it | not executed | AuthSecurity.AsWrittenIsSecureNeverAnswers | AuthSecurity.CorrectedIsSecureAnswers |
| module-absences-notifications/src/main/java/com/plateforme/absences/jms/NotificationProducer.java:54-62 | `session.close()` and `connection.close()` share one try block in `finally` | a send where `session.close()` throws a JMSException | close the connection even when closing the session fails | not executed | JmsProducer.SendLeaksConnection | JmsProducer.CorrectedSendClosesWhatItOpens |
