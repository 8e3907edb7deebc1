/** NotificationService: the notifications table behind an entity manager.
    The read-only finders are functions of the table; create, the three
    creer* builders, the two mark-as-read operations and the three deletes are
    methods of a class holding the table, the identity counter and the clock
    that CURRENT_TIMESTAMP and LocalDateTime.now() read. */
module NotificationStore {
  import opened Common
  import opened NotificationEntity

  /** getStatistiques: [total, non lues, lues]. */
  datatype Statistiques = Statistiques(total: int, nonLues: int, lues: int)

  /** The retention window of the purge of read notifications. */
  const RETENTION_DAYS: int := 30
  /** setMaxResults of findRecentes. */
  const MAX_RECENTES: nat := 10

  /** The order an identity table is kept in: ids strictly increase with insertion,
      and rows were sent in nondecreasing time. */
  predicate Chronological(table: seq<NotificationRow>)
  {
    Pairwise(IdBefore(), table) && Pairwise(SentNoLater(), table)
  }

  /** A table obtained by dropping rows keeps the insertion order. */
  lemma FilterChronological(p: NotificationRow -> bool, table: seq<NotificationRow>)
    requires Chronological(table)
    ensures Chronological(Filter(p, table))
  {
    FilterPairwise(p, IdBefore(), table);
    FilterPairwise(p, SentNoLater(), table);
  }

  /** Every id was handed out already and every row was sent by now. */
  predicate Bounded(table: seq<NotificationRow>, nextId: int, clock: int)
  {
    forall i :: 0 <= i < |table| ==> 1 <= table[i].id < nextId && table[i].dateEnvoi <= clock
  }

  /** Dropping rows keeps the table order and the bounds. */
  lemma FilterValid(p: NotificationRow -> bool, table: seq<NotificationRow>, nextId: int, clock: int)
    requires Chronological(table) && Bounded(table, nextId, clock)
    ensures Chronological(Filter(p, table)) && Bounded(Filter(p, table), nextId, clock)
  {
    FilterChronological(p, table);
    var f := Filter(p, table);
    forall i | 0 <= i < |f| ensures 1 <= f[i].id < nextId && f[i].dateEnvoi <= clock {
      var k :| 0 <= k < |table| && table[k] == f[i];
    }
  }

  /** Two tables with the same ids and send times at every position. */
  predicate SameSkeleton(a: seq<NotificationRow>, b: seq<NotificationRow>)
  {
    |a| == |b| && forall i :: 0 <= i < |a| ==> a[i].id == b[i].id && a[i].dateEnvoi == b[i].dateEnvoi
  }

  lemma SkeletonChronological(a: seq<NotificationRow>, b: seq<NotificationRow>)
    requires SameSkeleton(a, b) && Chronological(a)
    ensures Chronological(b)
  {
    forall i, j | 0 <= i < j < |b| ensures IdBefore()(b[i], b[j]) && SentNoLater()(b[i], b[j]) {
      assert IdBefore()(a[i], a[j]) && SentNoLater()(a[i], a[j]);
    }
  }

  /** A table kept oldest first, read backwards, is newest first. */
  lemma ReverseNewestFirst(s: seq<NotificationRow>)
    requires Pairwise(SentNoLater(), s)
    ensures Pairwise(SentNoEarlier(), Reverse(s))
  {
    var r := Reverse(s);
    forall i, j | 0 <= i < j < |r| ensures SentNoEarlier()(r[i], r[j]) {
      assert SentNoLater()(s[|s| - 1 - j], s[|s| - 1 - i]);
    }
  }

  // ---------------------------------------------------------------------------
  // Finders
  // ---------------------------------------------------------------------------

  /** The position of the row with primary key id, if any. */
  function IndexOf(table: seq<NotificationRow>, id: int): (r: Option<nat>)
    ensures r.Some? ==> r.value < |table| && table[r.value].id == id
    ensures r.Some? ==> forall j :: 0 <= j < r.value ==> table[j].id != id
    ensures r.None? ==> forall j :: 0 <= j < |table| ==> table[j].id != id
  {
    if table == [] then None
    else if table[0].id == id then Some(0)
    else match IndexOf(table[1..], id)
      case None => None
      case Some(k) => Some(k + 1)
  }

  /** em.find(Notification.class, id): the row with that primary key, or null. */
  function FindById(table: seq<NotificationRow>, id: int): (r: Option<NotificationRow>)
    ensures r.Some? ==> r.value in table && r.value.id == id
    ensures r.None? <==> forall x :: x in table ==> x.id != id
  {
    match IndexOf(table, id)
    case None => None
    case Some(i) => Some(table[i])
  }

  /** Notification.findByDestinataire: the recipient's rows, newest first
      (DestinataireNewestFirst states the order). */
  function FindByDestinataire(table: seq<NotificationRow>, u: int): (r: seq<NotificationRow>)
    ensures forall x :: x in r <==> x in table && x.destinataireId == u
    ensures |r| == Count(ForRecipient(u), table)
  {
    ReverseFilterMembers(ForRecipient(u), table);
    CountIsFilterLength(ForRecipient(u), table);
    Reverse(Filter(ForRecipient(u), table))
  }

  /** The ORDER BY n.dateEnvoi DESC of findByDestinataire. */
  lemma DestinataireNewestFirst(table: seq<NotificationRow>, u: int)
    requires Chronological(table)
    ensures Pairwise(SentNoEarlier(), FindByDestinataire(table, u))
  {
    FilterPairwise(ForRecipient(u), SentNoLater(), table);
    ReverseNewestFirst(Filter(ForRecipient(u), table));
  }

  /** Notification.findNonLues: the recipient's unread rows, newest first. */
  function FindNonLues(table: seq<NotificationRow>, u: int): (r: seq<NotificationRow>)
    ensures forall x :: x in r <==> x in table && x.destinataireId == u && !x.lue
  {
    ReverseFilterMembers(UnreadFor(u), table);
    Reverse(Filter(UnreadFor(u), table))
  }

  /** Notification.countNonLues. */
  function CountNonLues(table: seq<NotificationRow>, u: int): nat
  {
    Count(UnreadFor(u), table)
  }

  /** The unread list is the unread part of the full list, in the same order. */
  lemma NonLuesOfDestinataire(table: seq<NotificationRow>, u: int)
    ensures FindNonLues(table, u) == Filter(IsUnread(), FindByDestinataire(table, u))
  {
    var mine := Filter(ForRecipient(u), table);
    FilterReverse(IsUnread(), mine);
    FilterFilter(IsUnread(), ForRecipient(u), UnreadFor(u), table);
  }

  /** The count query and the list query use the same filter, so they agree. */
  lemma CountNonLuesIsListLength(table: seq<NotificationRow>, u: int)
    ensures CountNonLues(table, u) == |FindNonLues(table, u)|
  {
    CountIsFilterLength(UnreadFor(u), table);
  }

  /** findRecentes: the recipient's rows sent since now minus one day, newest first, at most ten. */
  function FindRecentes(table: seq<NotificationRow>, u: int, now: int): (r: seq<NotificationRow>)
    ensures |r| == if Count(RecentFor(u, now - DAY), table) <= MAX_RECENTES
                   then Count(RecentFor(u, now - DAY), table) else MAX_RECENTES
    ensures forall x :: x in r ==> x in table && x.destinataireId == u && x.dateEnvoi >= now - DAY
  {
    ReverseFilterMembers(RecentFor(u, now - DAY), table);
    CountIsFilterLength(RecentFor(u, now - DAY), table);
    Take(Reverse(Filter(RecentFor(u, now - DAY), table)), MAX_RECENTES)
  }

  /** When at most ten rows fall in the window, findRecentes returns all of them. */
  lemma RecentesComplete(table: seq<NotificationRow>, u: int, now: int)
    requires Count(RecentFor(u, now - DAY), table) <= MAX_RECENTES
    ensures forall x :: x in table && x.destinataireId == u && x.dateEnvoi >= now - DAY ==> x in FindRecentes(table, u, now)
  {
    CountIsFilterLength(RecentFor(u, now - DAY), table);
    ReverseFilterMembers(RecentFor(u, now - DAY), table);
  }

  /** In a chronological table, the rows sent since a cutoff are the last ones,
      so they form a suffix of the recipient's rows. */
  lemma {:induction false} WindowIsSuffix(table: seq<NotificationRow>, u: int, cutoff: int)
    requires Pairwise(SentNoLater(), table)
    ensures IsSuffix(Filter(RecentFor(u, cutoff), table), Filter(ForRecipient(u), table))
  {
    if table != [] {
      var rest := table[1..];
      assert Pairwise(SentNoLater(), rest) by {
        forall i, j | 0 <= i < j < |rest| ensures SentNoLater()(rest[i], rest[j]) {
          assert SentNoLater()(table[i + 1], table[j + 1]);
        }
      }
      if table[0].dateEnvoi >= cutoff {
        forall i | 0 <= i < |table| ensures RecentFor(u, cutoff)(table[i]) == ForRecipient(u)(table[i]) {
          if i > 0 {
            assert SentNoLater()(table[0], table[i]);
          }
        }
        FilterCongruent(RecentFor(u, cutoff), ForRecipient(u), table);
      } else {
        WindowIsSuffix(rest, u, cutoff);
        assert Filter(RecentFor(u, cutoff), table) == Filter(RecentFor(u, cutoff), rest);
        var whole := Filter(ForRecipient(u), table);
        var part := Filter(ForRecipient(u), rest);
        assert whole == part || whole == [table[0]] + part;
      }
    }
  }

  /** findRecentes returns the newest entries of findByDestinataire: its result is a prefix of it. */
  lemma RecentesArePrefix(table: seq<NotificationRow>, u: int, now: int)
    requires Chronological(table)
    ensures IsPrefix(FindRecentes(table, u, now), FindByDestinataire(table, u))
  {
    var window := Filter(RecentFor(u, now - DAY), table);
    var mine := Filter(ForRecipient(u), table);
    WindowIsSuffix(table, u, now - DAY);
    ReverseSuffix(window, mine);
    var rw, rm := Reverse(window), Reverse(mine);
    var t := Take(rw, MAX_RECENTES);
    assert t == rw[..|t|] && rw == rm[..|rw|];
    assert rm[..|t|] == rw[..|t|];
  }

  /** getStatistiques. */
  function GetStatistiques(table: seq<NotificationRow>, u: int): (r: Statistiques)
    ensures r.total == |FindByDestinataire(table, u)|
    ensures r.nonLues == |FindNonLues(table, u)|
    ensures 0 <= r.nonLues <= r.total
    ensures r.lues == Count(ReadFor(u), table) && r.lues == r.total - r.nonLues
  {
    var total := Count(ForRecipient(u), table);
    var nonLues := CountNonLues(table, u);
    CountNonLuesIsListLength(table, u);
    CountSplit(ForRecipient(u), UnreadFor(u), ReadFor(u), table);
    Statistiques(total, nonLues, total - nonLues)
  }

  // ---------------------------------------------------------------------------
  // The state changes, as functions of the table
  // ---------------------------------------------------------------------------

  /** marquerCommeLue(id): only an existing unread row changes. */
  function MarkOne(table: seq<NotificationRow>, id: int, now: int): (t: seq<NotificationRow>)
    ensures SameSkeleton(table, t)
    ensures forall i :: 0 <= i < |table| && (table[i].id != id || table[i].lue) ==> t[i] == table[i]
    ensures forall i :: 0 <= i < |table| ==> RowContent(t[i]) == RowContent(table[i])
    ensures match IndexOf(table, id)
      case None => t == table
      case Some(i) => t[i] == if table[i].lue then table[i] else MarkRead(table[i], now)
  {
    match IndexOf(table, id)
    case None => table
    case Some(i) => if table[i].lue then table else table[i := MarkRead(table[i], now)]
  }

  /** Marking the same id again, at any later time, changes nothing: the service
      guard keeps the first read time. */
  lemma MarkOneIdempotent(table: seq<NotificationRow>, id: int, now: int, later: int)
    ensures MarkOne(MarkOne(table, id, now), id, later) == MarkOne(table, id, now)
  {
    var once := MarkOne(table, id, now);
    match IndexOf(table, id)
    case None =>
    case Some(i) =>
      IndexOfSkeleton(table, once, id);
      assert once[i].lue;
  }

  /** Tables with the same ids locate a primary key at the same position. */
  lemma {:induction false} IndexOfSkeleton(a: seq<NotificationRow>, b: seq<NotificationRow>, id: int)
    requires SameSkeleton(a, b)
    ensures IndexOf(a, id) == IndexOf(b, id)
  {
    if a != [] {
      assert SameSkeleton(a[1..], b[1..]);
      IndexOfSkeleton(a[1..], b[1..], id);
    }
  }

  /** The bulk UPDATE of marquerToutesCommeLues. */
  function MarkAllRead(table: seq<NotificationRow>, u: int, now: int): (t: seq<NotificationRow>)
    ensures |t| == |table|
    ensures forall i :: 0 <= i < |table| ==>
      t[i] == (if table[i].destinataireId == u && !table[i].lue then MarkRead(table[i], now) else table[i])
  {
    if table == [] then []
    else [if UnreadFor(u)(table[0]) then MarkRead(table[0], now) else table[0]] + MarkAllRead(table[1..], u, now)
  }

  /** After the bulk update the recipient has nothing unread, keeps all their
      rows, and the statistics report every one of them as read. */
  lemma MarkAllReadStatistiques(table: seq<NotificationRow>, u: int, now: int)
    ensures CountNonLues(MarkAllRead(table, u, now), u) == 0
    ensures GetStatistiques(MarkAllRead(table, u, now), u)
      == Statistiques(GetStatistiques(table, u).total, 0, GetStatistiques(table, u).total)
  {
    var t := MarkAllRead(table, u, now);
    NoneUnreadAfterMarkAll(table, u, now);
    CountCongruent(ForRecipient(u), table, t);
  }

  lemma {:induction false} NoneUnreadAfterMarkAll(table: seq<NotificationRow>, u: int, now: int)
    ensures CountNonLues(MarkAllRead(table, u, now), u) == 0
  {
    if table != [] {
      NoneUnreadAfterMarkAll(table[1..], u, now);
      assert MarkAllRead(table, u, now)[1..] == MarkAllRead(table[1..], u, now);
    }
  }

  /** Once the recipient's rows are deleted, listing them finds nothing. */
  lemma NothingLeftFor(table: seq<NotificationRow>, u: int)
    ensures FindByDestinataire(Filter(NotFor(u), table), u) == []
  {
  }

  /** Deleting a recipient's rows removes as many rows as findByDestinataire
      listed, and leaves nothing to list. */
  lemma RecipientRemoved(table: seq<NotificationRow>, u: int)
    ensures |Filter(NotFor(u), table)| == |table| - Count(ForRecipient(u), table)
    ensures FindByDestinataire(Filter(NotFor(u), table), u) == []
  {
    CountComplement(ForRecipient(u), NotFor(u), table);
    CountIsFilterLength(NotFor(u), table);
    NothingLeftFor(table, u);
  }

  /** The purge removes exactly the rows read before the cutoff: every unread
      row stays, and the table shrinks by their count. */
  lemma PurgeKeepsUnread(table: seq<NotificationRow>, cutoff: int)
    ensures |Filter(Survives(cutoff), table)| == |table| - Count(Purgeable(cutoff), table)
    ensures forall i :: 0 <= i < |table| && !table[i].lue ==> table[i] in Filter(Survives(cutoff), table)
  {
    CountComplement(Purgeable(cutoff), Survives(cutoff), table);
    CountIsFilterLength(Survives(cutoff), table);
    forall i | 0 <= i < |table| && !table[i].lue ensures table[i] in Filter(Survives(cutoff), table) {
      assert Survives(cutoff)(table[i]);
    }
  }

  // ---------------------------------------------------------------------------
  // The service
  // ---------------------------------------------------------------------------

  class NotificationService {
    /** The notifications table, in insertion order. */
    var rows: seq<NotificationRow>
    /** The next value of the identity column. */
    var nextId: int
    /** CURRENT_TIMESTAMP and LocalDateTime.now(), in seconds. */
    var clock: int

    ghost predicate Valid()
      reads this
    {
      1 <= nextId && Chronological(rows) && Bounded(rows, nextId, clock)
    }

    constructor (start: int)
      ensures Valid() && rows == [] && nextId == 1 && clock == start
    {
      rows, nextId, clock := [], 1, start;
    }

    /** Time passes. */
    method AdvanceClock(now: int)
      requires Valid() && clock <= now
      modifies this`clock
      ensures Valid() && clock == now
    {
      clock := now;
    }

    /** create(notification): em.persist then flush. The persist callback stamps
        dateEnvoi; a bean that already has an id is refused as detached, and
        the NOT NULL and length constraints refuse incomplete content. */
    method Create(n: Notification) returns (res: Result<Notification>)
      requires Valid()
      modifies this`rows, this`nextId, n`id, n`dateEnvoi
      ensures Valid()
      ensures n.Fields() == old(n.Fields()) && n.lue == old(n.lue) && n.dateLecture == old(n.dateLecture)
      ensures res.Ok? <==> old(n.id).None? && Insertable(old(n.Fields()))
      ensures res.Ok? ==> (res.value == n && n.id == Some(old(nextId)) && nextId == old(nextId) + 1
        && Insertable(n.Fields())
        && rows == old(rows) + [NewRow(old(nextId), n.Fields(), n.lue, clock, n.dateLecture)])
      ensures res.Err? ==> res.error == PersistenceException && rows == old(rows) && nextId == old(nextId) && n.id == old(n.id)
      ensures n.dateEnvoi == if old(n.id).Some? then old(n.dateEnvoi) else Some(clock)
    {
      if n.id.Some? {
        return Err(PersistenceException);
      }
      n.OnCreate(clock);
      if !Insertable(n.Fields()) {
        return Err(PersistenceException);
      }
      var row := NewRow(nextId, n.Fields(), n.lue, clock, n.dateLecture);
      PairwiseSnoc(IdBefore(), rows, row);
      PairwiseSnoc(SentNoLater(), rows, row);
      forall i | 0 <= i < |rows| + 1 ensures 1 <= (rows + [row])[i].id < nextId + 1 && (rows + [row])[i].dateEnvoi <= clock {
        if i < |rows| {
          assert (rows + [row])[i] == rows[i];
        }
      }
      rows := rows + [row];
      n.id := Some(nextId);
      nextId := nextId + 1;
      res := Ok(n);
    }

    /** Builds a fresh bean with the given content and creates it. */
    method CreateContent(c: Content) returns (res: Result<Notification>)
      requires Valid()
      modifies this`rows, this`nextId
      ensures Valid() && nextId >= old(nextId)
      ensures res.Ok? <==> Insertable(c)
      ensures res.Ok? ==> (fresh(res.value) && res.value.id == Some(old(nextId))
        && rows == old(rows) + [NewRow(old(nextId), c, false, clock, None)]
        && res.value.Fields() == c && !res.value.lue && res.value.dateEnvoi == Some(clock)
        && res.value.dateLecture.None?)
      ensures res.Err? ==> res.error == PersistenceException && rows == old(rows)
    {
      var n := new Notification();
      n.destinataireId, n.expediteurId, n.typ := c.destinataireId, c.expediteurId, c.typ;
      n.sujet, n.message := c.sujet, c.message;
      n.referenceId, n.typeReference := c.referenceId, c.typeReference;
      res := Create(n);
    }

    /** creerNotificationAbsence. */
    method CreerNotificationAbsence(destinataireId: Option<int>, expediteurId: Option<int>, absenceId: Option<int>,
                                    typeAbsence: Option<string>, dateAbsence: Option<string>)
      returns (res: Result<Notification>)
      requires Valid()
      modifies this`rows, this`nextId
      ensures Valid()
      ensures res.Ok? <==> destinataireId.Some?
      ensures res.Ok? ==> rows == old(rows) + [NewRow(old(nextId), AbsenceNotice(destinataireId, expediteurId, absenceId, typeAbsence, dateAbsence), false, clock, None)]
      ensures res.Err? ==> rows == old(rows)
    {
      res := CreateContent(AbsenceNotice(destinataireId, expediteurId, absenceId, typeAbsence, dateAbsence));
    }

    /** creerNotificationConge. */
    method CreerNotificationConge(destinataireId: Option<int>, expediteurId: Option<int>, congeId: Option<int>,
                                  statut: Option<string>, periode: Option<string>, commentaire: Option<string>)
      returns (res: Result<Notification>)
      requires Valid()
      modifies this`rows, this`nextId
      ensures Valid()
      ensures res.Ok? <==> destinataireId.Some?
      ensures res.Ok? ==> rows == old(rows) + [NewRow(old(nextId), CongeNotice(destinataireId, expediteurId, congeId, statut, periode, commentaire), false, clock, None)]
      ensures res.Err? ==> rows == old(rows)
    {
      res := CreateContent(CongeNotice(destinataireId, expediteurId, congeId, statut, periode, commentaire));
    }

    /** creerNotification: a generic notification without reference. */
    method CreerNotification(destinataireId: Option<int>, expediteurId: Option<int>, typ: Option<string>,
                             sujet: Option<string>, message: Option<string>)
      returns (res: Result<Notification>)
      requires Valid()
      modifies this`rows, this`nextId
      ensures Valid()
      ensures res.Ok? <==> Insertable(Content(destinataireId, expediteurId, typ, sujet, message, None, None))
      ensures res.Ok? ==> (fresh(res.value) && res.value.id == Some(old(nextId))
        && res.value.Fields() == Content(destinataireId, expediteurId, typ, sujet, message, None, None)
        && !res.value.lue && res.value.dateEnvoi == Some(clock) && res.value.dateLecture.None?
        && rows == old(rows) + [NewRow(old(nextId), res.value.Fields(), false, clock, None)])
      ensures res.Err? ==> rows == old(rows)
    {
      res := CreateContent(Content(destinataireId, expediteurId, typ, sujet, message, None, None));
    }

    /** marquerCommeLue(id): null for an unknown id; an already read row is
        returned as it is; an unread row is loaded, marked by the entity method
        and merged back (date_envoi is not updatable, so only the read state changes). */
    method MarquerCommeLue(id: int) returns (r: Option<NotificationRow>)
      requires Valid()
      modifies this`rows
      ensures Valid()
      ensures rows == MarkOne(old(rows), id, clock)
      ensures r == FindById(rows, id)
      ensures old(FindById(rows, id)).None? ==> r.None? && rows == old(rows)
      ensures old(FindById(rows, id)).Some? && old(FindById(rows, id)).value.lue ==> r == old(FindById(rows, id)) && rows == old(rows)
      ensures old(FindById(rows, id)).Some? && !old(FindById(rows, id)).value.lue ==> r == Some(MarkRead(old(FindById(rows, id)).value, clock))
    {
      var i := IndexOf(rows, id);
      if i.None? {
        return None;
      }
      var row := rows[i.value];
      if row.lue {
        return Some(row);
      }
      var n := new Notification.Full(Some(row.id), Some(row.destinataireId), row.expediteurId, Some(row.typ),
                                     Some(row.sujet), Some(row.message), row.referenceId, row.typeReference,
                                     row.lue, Some(row.dateEnvoi), row.dateLecture);
      n.MarquerCommeLue(clock);
      var merged := row.(lue := n.lue, dateLecture := n.dateLecture);
      rows := rows[i.value := merged];
      IndexOfSkeleton(old(rows), rows, id);
      SkeletonChronological(old(rows), rows);
      r := Some(merged);
    }

    /** marquerToutesCommeLues(userId): the bulk UPDATE; returns how many rows it changed. */
    method MarquerToutesCommeLues(u: int) returns (count: int)
      requires Valid()
      modifies this`rows
      ensures Valid()
      ensures count == old(CountNonLues(rows, u))
      ensures rows == MarkAllRead(old(rows), u, clock)
    {
      count := CountNonLues(rows, u);
      var marked := MarkAllRead(rows, u, clock);
      assert SameSkeleton(rows, marked);
      SkeletonChronological(rows, marked);
      rows := marked;
    }

    /** delete(id): removes the row with that primary key; false when there is none. */
    method Delete(id: int) returns (deleted: bool)
      requires Valid()
      modifies this`rows
      ensures Valid()
      ensures deleted <==> old(FindById(rows, id)).Some?
      ensures rows == Filter(NotId(id), old(rows))
      ensures FindById(rows, id).None?
    {
      deleted := FindById(rows, id).Some?;
      if deleted {
        FilterValid(NotId(id), rows, nextId, clock);
        rows := Filter(NotId(id), rows);
      } else {
        FilterAll(NotId(id), rows);
      }
    }

    /** deleteByDestinataire(userId): removes every row of the recipient and returns how many. */
    method DeleteByDestinataire(u: int) returns (count: int)
      requires Valid()
      modifies this`rows
      ensures Valid()
      ensures count == Count(ForRecipient(u), old(rows))
      ensures rows == Filter(NotFor(u), old(rows))
      ensures |rows| == |old(rows)| - count
      ensures FindByDestinataire(rows, u) == []
    {
      FilterValid(NotFor(u), rows, nextId, clock);
      RecipientRemoved(rows, u);
      count := Count(ForRecipient(u), rows);
      rows := Filter(NotFor(u), rows);
    }

    /** deleteAnciennesNotificationsLues(): removes the rows read more than thirty
        days ago; unread rows of any age, and read rows without a read time, stay. */
    method DeleteAnciennesNotificationsLues() returns (count: int)
      requires Valid()
      modifies this`rows
      ensures Valid()
      ensures rows == Filter(Survives(clock - RETENTION_DAYS * DAY), old(rows))
      ensures count == Count(Purgeable(clock - RETENTION_DAYS * DAY), old(rows)) && |rows| == |old(rows)| - count
      ensures forall i :: 0 <= i < |old(rows)| && !old(rows)[i].lue ==> old(rows)[i] in rows
    {
      var cutoff := clock - RETENTION_DAYS * DAY;
      count := Count(Purgeable(cutoff), rows);
      PurgeKeepsUnread(rows, cutoff);
      FilterValid(Survives(cutoff), rows, nextId, clock);
      rows := Filter(Survives(cutoff), rows);
    }
  }

  // ---------------------------------------------------------------------------
  // Content of the three builders
  // ---------------------------------------------------------------------------

  /** The notification of a recorded absence. */
  function AbsenceNotice(destinataireId: Option<int>, expediteurId: Option<int>, absenceId: Option<int>,
                         typeAbsence: Option<string>, dateAbsence: Option<string>): (c: Content)
    ensures c.destinataireId == destinataireId && c.expediteurId == expediteurId && c.referenceId == absenceId
    ensures c.typ == Some("ABSENCE") && c.typeReference == Some("ABSENCE")
    ensures Insertable(c) <==> destinataireId.Some?
  {
    Content(destinataireId, expediteurId, Some("ABSENCE"), Some("Absence enregistrée"),
            Some("Votre absence (" + Str(typeAbsence) + ") du " + Str(dateAbsence) + " a été enregistrée."),
            absenceId, Some("ABSENCE"))
  }

  /** The reason written in a rejection when the manager gave none. */
  const RAISON_PAR_DEFAUT: string := "Non précisée"

  /** The message of a rejected request: it ends with the reason, or with
      the default reason when the manager gave none. */
  function RejectionMessage(periode: Option<string>, commentaire: Option<string>): (m: string)
    ensures EndsWith(m, "Raison : " + ValueOr(commentaire, RAISON_PAR_DEFAUT))
  {
    var m := "Votre demande de congé du " + Str(periode) + " a été rejetée. Raison : " + ValueOr(commentaire, RAISON_PAR_DEFAUT);
    ghost var raison := "Raison : " + ValueOr(commentaire, RAISON_PAR_DEFAUT);
    assert m[|m| - |raison|..] == raison;
    m
  }

  /** The notification of a leave request, chosen by statut. */
  function CongeNotice(destinataireId: Option<int>, expediteurId: Option<int>, congeId: Option<int>,
                       statut: Option<string>, periode: Option<string>, commentaire: Option<string>): (c: Content)
    ensures c.destinataireId == destinataireId && c.expediteurId == expediteurId
    ensures c.referenceId == congeId && c.typeReference == Some("DEMANDE_CONGE")
    ensures statut == Some("APPROUVE") ==> c.typ == Some("CONGE_APPROUVE")
    ensures statut == Some("REJETE") ==> (c.typ == Some("CONGE_REJETE")
      && c.message.Some? && EndsWith(c.message.value, "Raison : " + ValueOr(commentaire, RAISON_PAR_DEFAUT)))
    ensures statut != Some("APPROUVE") && statut != Some("REJETE") ==> c.typ == Some("DEMANDE_CONGE")
    ensures Insertable(c) <==> destinataireId.Some?
  {
    var (typ, sujet, message) :=
      if statut == Some("APPROUVE") then
        ("CONGE_APPROUVE", "Demande de congé approuvée",
         "Votre demande de congé du " + Str(periode) + " a été approuvée.")
      else if statut == Some("REJETE") then
        ("CONGE_REJETE", "Demande de congé rejetée", RejectionMessage(periode, commentaire))
      else
        ("DEMANDE_CONGE", "Nouvelle demande de congé",
         "Une demande de congé du " + Str(periode) + " est en attente de validation.");
    Content(destinataireId, expediteurId, Some(typ), Some(sujet), Some(message), congeId, Some("DEMANDE_CONGE"))
  }
}
