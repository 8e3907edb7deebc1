/** AbsenceService and TypeAbsenceService: the absences and types_absences
    tables behind one entity manager. The finders are functions of the tables;
    persist, merge and remove are methods of the two service classes, which
    share the database object. AbsenceService.create also sends the absence
    notification through the producer: a JMSException does not undo the
    insert, but an unchecked exception out of the producer, which joins
    create's container transaction, makes that transaction roll back. */
module AbsenceStore {
  import opened Common
  import opened Dates
  import opened Sorting
  import opened NotificationEntity
  import opened JmsProducer
  import opened JmsConsumer
  import opened AbsenceEntity

  // ---------------------------------------------------------------------------
  // Table invariants
  // ---------------------------------------------------------------------------

  /** Identity values grow with insertion order and were all handed out. */
  predicate AbsencesKeyed(absences: seq<AbsenceRow>, nextId: int)
  {
    Pairwise(AbsenceIdBefore(), absences) && forall i :: 0 <= i < |absences| ==> 1 <= absences[i].id < nextId
  }

  /** As AbsencesKeyed, and the unique constraint on nom holds. */
  predicate TypesKeyed(types: seq<TypeRow>, nextId: int)
  {
    && Pairwise(TypeIdBefore(), types) && Pairwise(DistinctNom(), types)
    && forall i :: 0 <= i < |types| ==> 1 <= types[i].id < nextId
  }

  /** The foreign key type_absence_id: every absence's type exists. */
  predicate ForeignKeys(absences: seq<AbsenceRow>, types: seq<TypeRow>)
  {
    forall i :: 0 <= i < |absences| ==> FindType(types, absences[i].typeAbsenceId).Some?
  }

  /** What an INSERT or UPDATE of an absence needs: the column constraints and an existing type. */
  predicate Persistable(f: AbsenceFields, types: seq<TypeRow>)
  {
    AbsenceInsertable(f) && FindType(types, f.typeAbsenceId.value).Some?
  }

  /** Some absence refers to the type with this id. */
  predicate InUse(absences: seq<AbsenceRow>, id: int)
  {
    exists i :: 0 <= i < |absences| && absences[i].typeAbsenceId == id
  }

  /** No row other than the one with this id already uses nom. */
  predicate NomFree(types: seq<TypeRow>, nom: string, id: int)
  {
    forall i :: 0 <= i < |types| && types[i].id != id ==> types[i].nom != nom
  }

  // ---------------------------------------------------------------------------
  // Finders
  // ---------------------------------------------------------------------------

  /** findAll(): every absence, dateAbsence descending. */
  function FindAll(absences: seq<AbsenceRow>): (r: seq<AbsenceRow>)
    ensures multiset(r) == multiset(absences)
    ensures Pairwise(DateDesc(), r)
  {
    DateOrdersTotal();
    SortBySorted(absences, DateDesc());
    SortBy(absences, DateDesc())
  }

  /** Absence.findByEmploye: the employee's absences, dateAbsence descending. */
  function FindByEmploye(absences: seq<AbsenceRow>, employeId: int): (r: seq<AbsenceRow>)
    ensures forall a :: a in r <==> a in absences && a.employeId == employeId
    ensures |r| == Count(ForEmploye(employeId), absences)
    ensures Pairwise(DateDesc(), r)
  {
    DateOrdersTotal();
    SortBySorted(Filter(ForEmploye(employeId), absences), DateDesc());
    SortedFilterMembers(ForEmploye(employeId), DateDesc(), absences);
    CountIsFilterLength(ForEmploye(employeId), absences);
    SortBy(Filter(ForEmploye(employeId), absences), DateDesc())
  }

  /** Absence.findByPeriode: the absences dated debut to fin, both included, oldest first. */
  function FindByPeriode(absences: seq<AbsenceRow>, debut: LocalDate, fin: LocalDate): (r: seq<AbsenceRow>)
    ensures forall a :: a in r <==> a in absences && Key(debut) <= Key(a.dateAbsence) <= Key(fin)
    ensures |r| == Count(InPeriode(debut, fin), absences)
    ensures Pairwise(DateAsc(), r)
  {
    DateOrdersTotal();
    SortBySorted(Filter(InPeriode(debut, fin), absences), DateAsc());
    SortedFilterMembers(InPeriode(debut, fin), DateAsc(), absences);
    CountIsFilterLength(InPeriode(debut, fin), absences);
    SortBy(Filter(InPeriode(debut, fin), absences), DateAsc())
  }

  /** A period that ends before it starts selects nothing. */
  lemma EmptyPeriode(absences: seq<AbsenceRow>, debut: LocalDate, fin: LocalDate)
    requires Key(fin) < Key(debut)
    ensures FindByPeriode(absences, debut, fin) == []
  {
  }

  /** Absence.findByEquipe: the absences of the listed employees, dateAbsence descending. */
  function FindByEquipe(absences: seq<AbsenceRow>, employeIds: seq<int>): (r: seq<AbsenceRow>)
    ensures forall a :: a in r <==> a in absences && a.employeId in employeIds
    ensures |r| == Count(InEquipe(employeIds), absences)
    ensures Pairwise(DateDesc(), r)
  {
    DateOrdersTotal();
    SortBySorted(Filter(InEquipe(employeIds), absences), DateDesc());
    SortedFilterMembers(InEquipe(employeIds), DateDesc(), absences);
    CountIsFilterLength(InEquipe(employeIds), absences);
    SortBy(Filter(InEquipe(employeIds), absences), DateDesc())
  }

  /** A team of one employee sees exactly that employee's absences. */
  lemma EquipeOfOne(absences: seq<AbsenceRow>, employeId: int)
    ensures forall a :: a in FindByEquipe(absences, [employeId]) <==> a in FindByEmploye(absences, employeId)
  {
  }

  /** Absence.findNonJustifiees: unjustified absences whose type requires a
      justification, in table order (the query has no ORDER BY). */
  function FindNonJustifiees(absences: seq<AbsenceRow>, types: seq<TypeRow>): (r: seq<AbsenceRow>)
    ensures forall a :: a in r <==> (a in absences && !a.justifiee && FindType(types, a.typeAbsenceId).Some?
                                     && FindType(types, a.typeAbsenceId).value.justificationRequise == Some(true))
    ensures multiset(r) <= multiset(absences)
  {
    var r := Filter(NonJustifiee(types), absences);
    assert forall a :: a in r ==> a in absences && NonJustifiee(types)(a) by {
      forall a | a in r ensures a in absences && NonJustifiee(types)(a) {
        var i :| 0 <= i < |r| && r[i] == a;
      }
    }
    assert forall a :: a in absences && NonJustifiee(types)(a) ==> a in r by {
      forall a | a in absences && NonJustifiee(types)(a) ensures a in r {
        var i :| 0 <= i < |absences| && absences[i] == a;
      }
    }
    r
  }

  /** A type whose justificationRequise is NULL hides its absences from the
      unjustified list, however many are unjustified. */
  lemma NullFlagHidesAbsences(absences: seq<AbsenceRow>, types: seq<TypeRow>, a: AbsenceRow)
    requires FindType(types, a.typeAbsenceId).Some?
    requires FindType(types, a.typeAbsenceId).value.justificationRequise.None?
    ensures a !in FindNonJustifiees(absences, types)
  {
  }

  /** Justifying an absence takes it off the unjustified list. */
  lemma JustifiedLeavesList(absences: seq<AbsenceRow>, types: seq<TypeRow>, a: AbsenceRow, path: Option<string>)
    ensures Justify(a, path) !in FindNonJustifiees(absences, types)
  {
  }

  /** TypeAbsence.findAll: every type, nom ascending. */
  function FindAllTypes(types: seq<TypeRow>): (r: seq<TypeRow>)
    ensures multiset(r) == multiset(types)
    ensures Pairwise(NomAsc(), r)
  {
    NomAscTotal();
    SortBySorted(types, NomAsc());
    SortBy(types, NomAsc())
  }

  /** findByNom(nom): the first row of TypeAbsence.findByNom, or null. */
  function FindTypeByNom(types: seq<TypeRow>, nom: string): (r: Option<TypeRow>)
    ensures r.Some? ==> r.value in types && r.value.nom == nom
    ensures r.None? <==> forall t :: t in types ==> t.nom != nom
  {
    match FirstIndex(NomIs(nom), types)
    case None => None
    case Some(i) => Some(types[i])
  }

  /** Under the unique constraint the row findByNom returns is the only one with that name. */
  lemma FindTypeByNomUnique(types: seq<TypeRow>, nom: string, t: TypeRow)
    requires Pairwise(DistinctNom(), types)
    requires t in types && t.nom == nom
    ensures FindTypeByNom(types, nom) == Some(t)
  {
    var r := FindTypeByNom(types, nom);
    assert r.Some?;
    var i :| 0 <= i < |types| && types[i] == t;
    var j :| 0 <= j < |types| && types[j] == r.value;
    if i < j {
      assert false;
    } else if j < i {
      assert false;
    }
  }

  // ---------------------------------------------------------------------------
  // Row updates
  // ---------------------------------------------------------------------------

  /** justifier: justifiee becomes true and the document path is recorded;
      every other column keeps its value. */
  function Justify(a: AbsenceRow, path: Option<string>): (j: AbsenceRow)
    ensures j.justifiee && j.documentJustificatif == path
    ensures j.(justifiee := a.justifiee, documentJustificatif := a.documentJustificatif) == a
  {
    a.(justifiee := true, documentJustificatif := path)
  }

  /** The bean justifier loads and marks holds the fields of the justified
      row, and merging it back under the row's id gives that row. */
  lemma JustifiedBean(a: AbsenceRow, path: Option<string>)
    ensures AbsenceFieldsOf(Justify(a, path)) == AbsenceFieldsOf(a).(justifiee := Some(true), documentJustificatif := path)
    ensures AbsenceInsertable(AbsenceFieldsOf(Justify(a, path))) ==>
      NewAbsenceRow(a.id, AbsenceFieldsOf(Justify(a, path)), a.dateCreation) == Justify(a, path)
  {
    if AbsenceInsertable(AbsenceFieldsOf(Justify(a, path))) {
      AbsenceRowRoundTrip(Justify(a, path));
    }
  }

  /** Replacing a row by one with the same id keeps the identity order and bounds. */
  lemma ReplaceKeyed(absences: seq<AbsenceRow>, nextId: int, x: AbsenceRow)
    requires AbsencesKeyed(absences, nextId)
    ensures AbsencesKeyed(ReplaceWhere(AbsenceId(x.id), absences, x), nextId)
    ensures forall i :: 0 <= i < |absences| ==> ReplaceWhere(AbsenceId(x.id), absences, x)[i].id == absences[i].id
  {
    var r := ReplaceWhere(AbsenceId(x.id), absences, x);
    forall i, j | 0 <= i < j < |r| ensures AbsenceIdBefore()(r[i], r[j]) {
      assert AbsenceIdBefore()(absences[i], absences[j]);
    }
  }

  /** After the update, looking up the id finds the new row. */
  lemma ReplaceFinds(absences: seq<AbsenceRow>, x: AbsenceRow)
    requires FindAbsence(absences, x.id).Some?
    ensures FindAbsence(ReplaceWhere(AbsenceId(x.id), absences, x), x.id) == Some(x)
  {
    var r := ReplaceWhere(AbsenceId(x.id), absences, x);
    var k :| 0 <= k < |absences| && absences[k].id == x.id;
    assert r[k] == x;
    var i := FirstIndex(AbsenceId(x.id), r).value;
    assert AbsenceId(x.id)(r[i]);
  }

  /** A type update that keeps the row's id and takes a free name keeps the table keyed. */
  lemma ReplaceTypeKeyed(types: seq<TypeRow>, nextId: int, x: TypeRow)
    requires TypesKeyed(types, nextId) && NomFree(types, x.nom, x.id)
    ensures TypesKeyed(ReplaceWhere(TypeId(x.id), types, x), nextId)
    ensures forall i :: 0 <= i < |types| ==> ReplaceWhere(TypeId(x.id), types, x)[i].id == types[i].id
  {
    var r := ReplaceWhere(TypeId(x.id), types, x);
    forall i, j | 0 <= i < j < |r| ensures TypeIdBefore()(r[i], r[j]) && DistinctNom()(r[i], r[j]) {
      assert TypeIdBefore()(types[i], types[j]) && DistinctNom()(types[i], types[j]);
    }
  }

  /** The types an update keeps the ids of still satisfy every foreign key. */
  lemma SameIdsKeepForeignKeys(absences: seq<AbsenceRow>, types: seq<TypeRow>, types': seq<TypeRow>)
    requires ForeignKeys(absences, types)
    requires |types'| == |types| && forall i :: 0 <= i < |types| ==> types'[i].id == types[i].id
    ensures ForeignKeys(absences, types')
  {
    forall i | 0 <= i < |absences| ensures FindType(types', absences[i].typeAbsenceId).Some? {
      var t := FindType(types, absences[i].typeAbsenceId).value;
      var k :| 0 <= k < |types| && types[k] == t;
      assert types'[k] in types' && types'[k].id == absences[i].typeAbsenceId;
    }
  }

  /** A stored absence's type exists. */
  lemma StoredHasType(absences: seq<AbsenceRow>, types: seq<TypeRow>, a: AbsenceRow)
    requires ForeignKeys(absences, types) && a in absences
    ensures FindType(types, a.typeAbsenceId).Some?
  {
    var i :| 0 <= i < |absences| && absences[i] == a;
  }

  /** Inserting a row with the next id and an existing type keeps the absences keyed and the foreign keys. */
  lemma AppendAbsenceKeepsKeys(absences: seq<AbsenceRow>, types: seq<TypeRow>, nextId: int, row: AbsenceRow)
    requires AbsencesKeyed(absences, nextId) && ForeignKeys(absences, types)
    requires 1 <= nextId && row.id == nextId && FindType(types, row.typeAbsenceId).Some?
    ensures AbsencesKeyed(absences + [row], nextId + 1) && ForeignKeys(absences + [row], types)
  {
    PairwiseSnoc(AbsenceIdBefore(), absences, row);
    var grown := absences + [row];
    forall i | 0 <= i < |grown| ensures FindType(types, grown[i].typeAbsenceId).Some? && 1 <= grown[i].id < nextId + 1 {
      if i < |absences| {
        assert grown[i] == absences[i];
      }
    }
  }

  /** Overwriting a row by id with one whose type exists keeps the absences keyed and the foreign keys. */
  lemma ReplaceAbsenceKeepsKeys(absences: seq<AbsenceRow>, types: seq<TypeRow>, nextId: int, row: AbsenceRow)
    requires AbsencesKeyed(absences, nextId) && ForeignKeys(absences, types)
    requires FindAbsence(absences, row.id).Some? && FindType(types, row.typeAbsenceId).Some?
    ensures var r := ReplaceWhere(AbsenceId(row.id), absences, row);
      AbsencesKeyed(r, nextId) && ForeignKeys(r, types) && FindAbsence(r, row.id) == Some(row)
  {
    ReplaceKeyed(absences, nextId, row);
    ReplaceFinds(absences, row);
  }

  /** Inserting a type with the next id and a new name keeps the types keyed and the foreign keys. */
  lemma AppendTypeKeepsKeys(absences: seq<AbsenceRow>, types: seq<TypeRow>, nextId: int, row: TypeRow)
    requires TypesKeyed(types, nextId) && ForeignKeys(absences, types)
    requires 1 <= nextId && row.id == nextId && FindTypeByNom(types, row.nom).None?
    ensures TypesKeyed(types + [row], nextId + 1) && ForeignKeys(absences, types + [row])
  {
    PairwiseSnoc(TypeIdBefore(), types, row);
    PairwiseSnoc(DistinctNom(), types, row);
    var grown := types + [row];
    forall i | 0 <= i < |grown| ensures 1 <= grown[i].id < nextId + 1 {
      if i < |types| {
        assert grown[i] == types[i];
      }
    }
    forall i | 0 <= i < |absences| ensures FindType(grown, absences[i].typeAbsenceId).Some? {
      var t := FindType(types, absences[i].typeAbsenceId).value;
      assert t in types;
      var k :| 0 <= k < |types| && types[k] == t;
      assert grown[k] == types[k];
    }
  }

  /** Removing a type no absence refers to keeps the types keyed and the foreign keys, and keeps every other type. */
  lemma RemoveTypeKeepsKeys(absences: seq<AbsenceRow>, types: seq<TypeRow>, nextId: int, id: int)
    requires TypesKeyed(types, nextId) && ForeignKeys(absences, types)
    requires !InUse(absences, id)
    ensures var kept := Filter(NotTypeId(id), types);
      && TypesKeyed(kept, nextId) && ForeignKeys(absences, kept) && FindType(kept, id).None?
      && forall t :: t in types && t.id != id ==> t in kept
  {
    var kept := Filter(NotTypeId(id), types);
    FilterPairwise(NotTypeId(id), TypeIdBefore(), types);
    FilterPairwise(NotTypeId(id), DistinctNom(), types);
    forall k | 0 <= k < |kept| ensures 1 <= kept[k].id < nextId {
      var m :| 0 <= m < |types| && types[m] == kept[k];
    }
    forall i | 0 <= i < |absences| ensures FindType(kept, absences[i].typeAbsenceId).Some? {
      var t := FindType(types, absences[i].typeAbsenceId).value;
      var m :| 0 <= m < |types| && types[m] == t;
      assert NotTypeId(id)(types[m]);
    }
    forall t | t in types && t.id != id ensures t in kept {
      var m :| 0 <= m < |types| && types[m] == t;
      assert NotTypeId(id)(types[m]);
    }
  }

  /** The invariant of the two tables: both keyed, every foreign key resolved. */
  predicate Consistent(absences: seq<AbsenceRow>, types: seq<TypeRow>, nextAbsenceId: int, nextTypeId: int)
  {
    && 1 <= nextAbsenceId && 1 <= nextTypeId
    && AbsencesKeyed(absences, nextAbsenceId) && TypesKeyed(types, nextTypeId)
    && ForeignKeys(absences, types)
  }

  /** A rolled-back INSERT leaves the tables as they were, with the identity value consumed. */
  lemma RollbackConsistent(absences: seq<AbsenceRow>, types: seq<TypeRow>, nA: int, nA2: int, nT: int)
    requires Consistent(absences, types, nA, nT) && nA <= nA2
    ensures Consistent(absences, types, nA2, nT)
  {
  }

  /** An INSERT of an absence with the next id and an existing type keeps the tables consistent. */
  lemma InsertAbsenceConsistent(absences: seq<AbsenceRow>, types: seq<TypeRow>, nA: int, nT: int, row: AbsenceRow)
    requires Consistent(absences, types, nA, nT) && row.id == nA && FindType(types, row.typeAbsenceId).Some?
    ensures Consistent(absences + [row], types, nA + 1, nT)
  {
    AppendAbsenceKeepsKeys(absences, types, nA, row);
  }

  /** An UPDATE of a stored absence to an existing type keeps the tables consistent. */
  lemma UpdateAbsenceConsistent(absences: seq<AbsenceRow>, types: seq<TypeRow>, nA: int, nT: int, row: AbsenceRow)
    requires Consistent(absences, types, nA, nT)
    requires FindAbsence(absences, row.id).Some? && FindType(types, row.typeAbsenceId).Some?
    ensures Consistent(ReplaceWhere(AbsenceId(row.id), absences, row), types, nA, nT)
    ensures FindAbsence(ReplaceWhere(AbsenceId(row.id), absences, row), row.id) == Some(row)
  {
    ReplaceAbsenceKeepsKeys(absences, types, nA, row);
  }

  /** A DELETE of an absence keeps the tables consistent and every other absence. */
  lemma DeleteAbsenceConsistent(absences: seq<AbsenceRow>, types: seq<TypeRow>, nA: int, nT: int, id: int)
    requires Consistent(absences, types, nA, nT)
    ensures var kept := Filter(NotAbsenceId(id), absences);
      && Consistent(kept, types, nA, nT) && FindAbsence(kept, id).None?
      && forall a :: a in absences && a.id != id ==> a in kept
  {
    var kept := Filter(NotAbsenceId(id), absences);
    FilterPairwise(NotAbsenceId(id), AbsenceIdBefore(), absences);
    forall k | 0 <= k < |kept| ensures 1 <= kept[k].id < nA && FindType(types, kept[k].typeAbsenceId).Some? {
      var m :| 0 <= m < |absences| && absences[m] == kept[k];
    }
    forall a | a in absences && a.id != id ensures a in kept {
      var m :| 0 <= m < |absences| && absences[m] == a;
      assert NotAbsenceId(id)(absences[m]);
    }
  }

  /** An INSERT of a type with the next id and a new name keeps the tables consistent. */
  lemma InsertTypeConsistent(absences: seq<AbsenceRow>, types: seq<TypeRow>, nA: int, nT: int, row: TypeRow)
    requires Consistent(absences, types, nA, nT) && row.id == nT && FindTypeByNom(types, row.nom).None?
    ensures Consistent(absences, types + [row], nA, nT + 1)
  {
    AppendTypeKeepsKeys(absences, types, nT, row);
  }

  /** An UPDATE of a stored type to a name no other type has keeps the tables consistent. */
  lemma UpdateTypeConsistent(absences: seq<AbsenceRow>, types: seq<TypeRow>, nA: int, nT: int, row: TypeRow)
    requires Consistent(absences, types, nA, nT) && NomFree(types, row.nom, row.id)
    ensures Consistent(absences, ReplaceWhere(TypeId(row.id), types, row), nA, nT)
  {
    ReplaceTypeKeyed(types, nT, row);
    SameIdsKeepForeignKeys(absences, types, ReplaceWhere(TypeId(row.id), types, row));
  }

  /** Under the foreign key, no absence refers to a type that is not stored. */
  lemma UnknownTypeUnused(absences: seq<AbsenceRow>, types: seq<TypeRow>, id: int)
    requires ForeignKeys(absences, types) && FindType(types, id).None?
    ensures !InUse(absences, id)
  {
  }

  /** A DELETE of a type no absence refers to keeps the tables consistent. */
  lemma DeleteTypeConsistent(absences: seq<AbsenceRow>, types: seq<TypeRow>, nA: int, nT: int, id: int)
    requires Consistent(absences, types, nA, nT) && !InUse(absences, id)
    ensures var kept := Filter(NotTypeId(id), types);
      && Consistent(absences, kept, nA, nT) && FindType(kept, id).None?
      && forall t :: t in types && t.id != id ==> t in kept
  {
    RemoveTypeKeepsKeys(absences, types, nT, id);
  }

  // ---------------------------------------------------------------------------
  // The notification of a new absence
  // ---------------------------------------------------------------------------

  /** The event create sends for a stored absence: to the employee, from whoever
      recorded it, about the new id, naming the type and the ISO date. */
  function CreationNotice(a: AbsenceRow, types: seq<TypeRow>): (e: Content)
    requires FindType(types, a.typeAbsenceId).Some?
    ensures e.destinataireId == Some(a.employeId) && e.expediteurId == a.enregistrePar && e.referenceId == Some(a.id)
    ensures e.typ == Some("ABSENCE") && e.typeReference == Some("ABSENCE")
    ensures Insertable(e)
  {
    AbsenceEvent(Some(a.employeId), a.enregistrePar, Some(a.id), Some(FindType(types, a.typeAbsenceId).value.nom),
                 Some(ToIsoString(a.dateAbsence)))
  }

  /** End to end: when the send does not fail, the consumer stores one more
      unread notification for the employee, about this absence. */
  lemma {:induction false} CreatedAbsenceReachesEmployee(a: AbsenceRow, types: seq<TypeRow>, env: JmsEnv,
                                                         table: seq<NotificationRow>, nextId: int, clock: int)
    requires FindType(types, a.typeAbsenceId).Some? && env.fault.None?
    ensures |Sent(env, CreationNotice(a, types))| == 1
    ensures var after := table + Stores(Sent(env, CreationNotice(a, types))[0], nextId, clock);
      && |after| == |table| + 1 && after[|table|].destinataireId == a.employeId
      && after[|table|].referenceId == Some(a.id) && !after[|table|].lue
      && NotificationStore.CountNonLues(after, a.employeId) == NotificationStore.CountNonLues(table, a.employeId) + 1
  {
    var e := CreationNotice(a, types);
    SentEventIsStored(env, e, table, nextId, clock);
    var after := table + Stores(Sent(env, e)[0], nextId, clock);
    assert RowContent(after[|table|]) == e;
  }

  // ---------------------------------------------------------------------------
  // The database and the two services
  // ---------------------------------------------------------------------------

  class AbsenceDatabase {
    /** The absences table, in insertion order. */
    var absences: seq<AbsenceRow>
    /** The types_absences table, in insertion order. */
    var types: seq<TypeRow>
    var nextAbsenceId: int
    var nextTypeId: int
    /** LocalDateTime.now(), in seconds. */
    var clock: int

    ghost predicate Valid()
      reads this
    {
      Consistent(absences, types, nextAbsenceId, nextTypeId)
    }

    constructor (start: int)
      ensures Valid() && absences == [] && types == [] && nextAbsenceId == 1 && nextTypeId == 1 && clock == start
    {
      absences, types, nextAbsenceId, nextTypeId, clock := [], [], 1, 1, start;
    }

    /** Time passes. */
    method AdvanceClock(now: int)
      requires Valid()
      modifies this`clock
      ensures Valid() && clock == now
    {
      clock := now;
    }
  }

  /** The two setters justifier calls on the loaded bean. */
  method MarkJustified(a: Absence, path: Option<string>)
    modifies a`justifiee, a`documentJustificatif
    ensures a.Fields() == old(a.Fields()).(justifiee := Some(true), documentJustificatif := path)
  {
    a.justifiee := Some(true);
    a.documentJustificatif := path;
  }

  class AbsenceService {
    const db: AbsenceDatabase
    /** The injected NotificationProducer. */
    const producer: NotificationProducer

    constructor (db: AbsenceDatabase, producer: NotificationProducer)
      ensures this.db == db && this.producer == producer
    {
      this.db := db;
      this.producer := producer;
    }

    /** findById(id): a managed bean holding the row, or null. */
    method FindById(id: int) returns (a: Absence?)
      ensures a == null <==> FindAbsence(db.absences, id).None?
      ensures a != null ==> (fresh(a) && a.id == Some(id)
        && a.Fields() == AbsenceFieldsOf(FindAbsence(db.absences, id).value)
        && a.dateCreation == Some(FindAbsence(db.absences, id).value.dateCreation))
    {
      var row := FindAbsence(db.absences, id);
      if row.None? {
        return null;
      }
      a := new Absence.Loaded(row.value);
    }

    /** create(absence): persist and flush, then one notification to the
        employee. Every exception of the send is caught and logged, so once the
        row is flushed create returns the bean. The producer is itself a
        stateless bean in create's transaction: an unchecked exception leaving
        it is a system exception, the container marks the transaction
        rollback-only, and the commit at the end of create undoes the INSERT
        (the identity value stays consumed). A bean with an id is refused as
        detached; constraint and foreign-key violations refuse the flush. */
    method Create(absence: Absence, env: JmsEnv) returns (res: Result<Absence>)
      requires db.Valid()
      modifies db`absences, db`nextAbsenceId, absence`id, absence`dateCreation, producer.broker
      ensures db.Valid() && db.types == old(db.types) && db.clock == old(db.clock)
      ensures absence.Fields() == old(absence.Fields())
      ensures absence.dateCreation == if old(absence.id).Some? then old(absence.dateCreation) else Some(db.clock)
      ensures res.Ok? <==> old(absence.id).None? && Persistable(absence.Fields(), db.types)
      ensures res.Ok? ==> (res.value == absence && absence.id == Some(old(db.nextAbsenceId))
        && db.nextAbsenceId == old(db.nextAbsenceId) + 1
        && db.absences == old(db.absences)
             + (if Escapes(env).None? then [NewAbsenceRow(old(db.nextAbsenceId), absence.Fields(), db.clock)] else [])
        && producer.broker.queue == old(producer.broker.queue)
             + Sent(env, CreationNotice(NewAbsenceRow(old(db.nextAbsenceId), absence.Fields(), db.clock), db.types))
        && producer.broker.calls == old(producer.broker.calls) + SendCalls(env))
      ensures res.Err? ==> (res.error == PersistenceException && absence.id == old(absence.id)
        && db.absences == old(db.absences) && db.nextAbsenceId == old(db.nextAbsenceId)
        && producer.broker.queue == old(producer.broker.queue) && producer.broker.calls == old(producer.broker.calls))
    {
      if absence.id.Some? {
        return Err(PersistenceException);
      }
      absence.OnCreate(db.clock);
      if !Persistable(absence.Fields(), db.types) {
        return Err(PersistenceException);
      }
      var before := db.absences;
      var row := Persist(absence);
      var nom := FindType(db.types, row.typeAbsenceId).value.nom;
      // an exception out of the producer is caught and logged: create goes on
      var thrown := producer.EnvoyerNotificationAbsence(absence.employeId, absence.enregistrePar, absence.id,
                                                        Some(nom), Some(ToIsoString(absence.dateAbsence.value)), env);
      if thrown.Some? {
        // the transaction was marked rollback-only: the commit drops the row
        RollbackConsistent(before, db.types, old(db.nextAbsenceId), db.nextAbsenceId, db.nextTypeId);
        db.absences := before;
      }
      res := Ok(absence);
    }

    /** em.persist and flush of a new bean the constraints accept: the row
        takes the next identity value, which the bean receives. */
    method Persist(absence: Absence) returns (row: AbsenceRow)
      requires db.Valid() && absence.id.None? && Persistable(absence.Fields(), db.types)
      modifies db`absences, db`nextAbsenceId, absence`id
      ensures db.Valid() && db.types == old(db.types) && db.clock == old(db.clock)
      ensures row == NewAbsenceRow(old(db.nextAbsenceId), absence.Fields(), db.clock)
      ensures db.absences == old(db.absences) + [row] && db.nextAbsenceId == old(db.nextAbsenceId) + 1
      ensures absence.id == Some(row.id)
    {
      row := NewAbsenceRow(db.nextAbsenceId, absence.Fields(), db.clock);
      InsertAbsenceConsistent(db.absences, db.types, db.nextAbsenceId, db.nextTypeId, row);
      db.absences := db.absences + [row];
      absence.id := Some(db.nextAbsenceId);
      db.nextAbsenceId := db.nextAbsenceId + 1;
    }

    /** update(absence): em.merge. A bean without id is inserted as a new row;
        a bean whose id is stored overwrites that row, except date_creation,
        which is not updatable; a bean whose row is gone is refused. */
    method Update(absence: Absence) returns (res: Result<AbsenceRow>)
      requires db.Valid()
      modifies db`absences, db`nextAbsenceId
      ensures db.Valid() && db.types == old(db.types) && db.clock == old(db.clock)
      ensures absence.id.None? ==> (res.Ok? <==> Persistable(absence.Fields(), db.types))
      ensures absence.id.Some? ==> (res.Ok? <==> FindAbsence(old(db.absences), absence.id.value).Some?
                                                 && Persistable(absence.Fields(), db.types))
      ensures res.Ok? && absence.id.None? ==> (res.value == NewAbsenceRow(old(db.nextAbsenceId), absence.Fields(), db.clock)
        && db.absences == old(db.absences) + [res.value] && db.nextAbsenceId == old(db.nextAbsenceId) + 1)
      ensures res.Ok? && absence.id.Some? ==> (
        res.value == NewAbsenceRow(absence.id.value, absence.Fields(), FindAbsence(old(db.absences), absence.id.value).value.dateCreation)
        && db.absences == ReplaceWhere(AbsenceId(absence.id.value), old(db.absences), res.value)
        && FindAbsence(db.absences, absence.id.value) == Some(res.value)
        && db.nextAbsenceId == old(db.nextAbsenceId))
      ensures res.Err? ==> (res.error == PersistenceException
        && db.absences == old(db.absences) && db.nextAbsenceId == old(db.nextAbsenceId))
    {
      var f := absence.Fields();
      if absence.id.None? {
        if !Persistable(f, db.types) {
          return Err(PersistenceException);
        }
        var row := NewAbsenceRow(db.nextAbsenceId, f, db.clock);
        InsertAbsenceConsistent(db.absences, db.types, db.nextAbsenceId, db.nextTypeId, row);
        db.absences := db.absences + [row];
        db.nextAbsenceId := db.nextAbsenceId + 1;
        return Ok(row);
      }
      var id := absence.id.value;
      var stored := FindAbsence(db.absences, id);
      if stored.None? || !Persistable(f, db.types) {
        return Err(PersistenceException);
      }
      var row := NewAbsenceRow(id, f, stored.value.dateCreation);
      UpdateAbsenceConsistent(db.absences, db.types, db.nextAbsenceId, db.nextTypeId, row);
      db.absences := ReplaceWhere(AbsenceId(id), db.absences, row);
      res := Ok(row);
    }

    /** delete(id): removes the absence with that id; nothing when there is none. */
    method Delete(id: int)
      requires db.Valid()
      modifies db`absences
      ensures db.Valid()
      ensures db.absences == Filter(NotAbsenceId(id), old(db.absences))
      ensures old(FindAbsence(db.absences, id)).None? ==> db.absences == old(db.absences)
      ensures FindAbsence(db.absences, id).None?
      ensures forall a :: a in old(db.absences) && a.id != id ==> a in db.absences
    {
      if FindAbsence(db.absences, id).None? {
        FilterAll(NotAbsenceId(id), db.absences);
      }
      DeleteAbsenceConsistent(db.absences, db.types, db.nextAbsenceId, db.nextTypeId, id);
      db.absences := Filter(NotAbsenceId(id), db.absences);
    }

    /** justifier(id, documentPath): null for an unknown id; otherwise the
        loaded bean is marked justified with that document and merged back. */
    method Justifier(id: int, documentPath: Option<string>) returns (res: Result<Option<AbsenceRow>>)
      requires db.Valid()
      modifies db`absences, db`nextAbsenceId
      ensures db.Valid()
      ensures old(FindAbsence(db.absences, id)).None? ==> res == Ok(None) && db.absences == old(db.absences)
      ensures old(FindAbsence(db.absences, id)).Some? ==> (
        var j := Justify(old(FindAbsence(db.absences, id)).value, documentPath);
        && (res.Ok? <==> AbsenceInsertable(AbsenceFieldsOf(j)))
        && (res.Ok? ==> res.value == Some(j) && db.absences == ReplaceWhere(AbsenceId(id), old(db.absences), j))
        && (res.Err? ==> res.error == PersistenceException && db.absences == old(db.absences)))
    {
      var absence := FindById(id);
      if absence == null {
        return Ok(None);
      }
      ghost var stored := FindAbsence(db.absences, id).value;
      ghost var j := Justify(stored, documentPath);
      StoredHasType(db.absences, db.types, stored);
      JustifiedBean(stored, documentPath);
      MarkJustified(absence, documentPath);
      assert absence.Fields() == AbsenceFieldsOf(j) && absence.id == Some(id);
      ghost var f := absence.Fields();
      var merged := Update(absence);
      assert merged.Ok? <==> AbsenceInsertable(f);
      assert merged.Ok? ==> merged.value == NewAbsenceRow(id, f, stored.dateCreation) == j;
      res := if merged.Ok? then Ok(Some(merged.value)) else Err(merged.error);
    }
  }

  class TypeAbsenceService {
    const db: AbsenceDatabase

    constructor (db: AbsenceDatabase)
      ensures this.db == db
    {
      this.db := db;
    }

    /** findById(id): a managed bean holding the type, or null. */
    method FindById(id: int) returns (t: TypeAbsence?)
      ensures t == null <==> FindType(db.types, id).None?
      ensures t != null ==> (fresh(t) && t.id == Some(id) && t.Fields() == TypeFieldsOf(FindType(db.types, id).value)
        && t.dateCreation == Some(FindType(db.types, id).value.dateCreation))
    {
      var row := FindType(db.types, id);
      if row.None? {
        return null;
      }
      t := new TypeAbsence.Loaded(row.value);
    }

    /** create(type): em.persist. The unique and NOT NULL constraints on nom
        and the column lengths refuse the insert when the transaction commits. */
    method Create(t: TypeAbsence) returns (res: Result<TypeAbsence>)
      requires db.Valid()
      modifies db`types, db`nextTypeId, t`id, t`dateCreation
      ensures db.Valid() && db.absences == old(db.absences) && db.clock == old(db.clock)
      ensures t.Fields() == old(t.Fields())
      ensures t.dateCreation == if old(t.id).Some? then old(t.dateCreation) else Some(db.clock)
      ensures res.Ok? <==> (old(t.id).None? && TypeInsertable(t.Fields())
                            && FindTypeByNom(old(db.types), t.nom.value).None?)
      ensures res.Ok? ==> (res.value == t && t.id == Some(old(db.nextTypeId)) && db.nextTypeId == old(db.nextTypeId) + 1
        && db.types == old(db.types) + [NewTypeRow(old(db.nextTypeId), t.Fields(), db.clock)])
      ensures res.Err? ==> (res.error == PersistenceException && t.id == old(t.id)
        && db.types == old(db.types) && db.nextTypeId == old(db.nextTypeId))
    {
      if t.id.Some? {
        return Err(PersistenceException);
      }
      t.OnCreate(db.clock);
      var f := t.Fields();
      if !TypeInsertable(f) || FindTypeByNom(db.types, f.nom.value).Some? {
        return Err(PersistenceException);
      }
      var row := NewTypeRow(db.nextTypeId, f, db.clock);
      InsertTypeConsistent(db.absences, db.types, db.nextAbsenceId, db.nextTypeId, row);
      db.types := db.types + [row];
      t.id := Some(db.nextTypeId);
      db.nextTypeId := db.nextTypeId + 1;
      res := Ok(t);
    }

    /** update(type): em.merge, as AbsenceService.update; the new name must
        not be another type's. */
    method Update(t: TypeAbsence) returns (res: Result<TypeRow>)
      requires db.Valid()
      modifies db`types, db`nextTypeId
      ensures db.Valid() && db.absences == old(db.absences) && db.clock == old(db.clock)
      ensures t.id.None? ==> (res.Ok? <==> TypeInsertable(t.Fields()) && FindTypeByNom(old(db.types), t.nom.value).None?)
      ensures t.id.Some? ==> (res.Ok? <==> FindType(old(db.types), t.id.value).Some? && TypeInsertable(t.Fields())
                                           && NomFree(old(db.types), t.nom.value, t.id.value))
      ensures res.Ok? && t.id.None? ==> (res.value == NewTypeRow(old(db.nextTypeId), t.Fields(), db.clock)
        && db.types == old(db.types) + [res.value] && db.nextTypeId == old(db.nextTypeId) + 1)
      ensures res.Ok? && t.id.Some? ==> (
        res.value == NewTypeRow(t.id.value, t.Fields(), FindType(old(db.types), t.id.value).value.dateCreation)
        && db.types == ReplaceWhere(TypeId(t.id.value), old(db.types), res.value)
        && db.nextTypeId == old(db.nextTypeId))
      ensures res.Err? ==> res.error == PersistenceException && db.types == old(db.types) && db.nextTypeId == old(db.nextTypeId)
    {
      var f := t.Fields();
      if !TypeInsertable(f) {
        return Err(PersistenceException);
      }
      if t.id.None? {
        if FindTypeByNom(db.types, f.nom.value).Some? {
          return Err(PersistenceException);
        }
        var row := NewTypeRow(db.nextTypeId, f, db.clock);
        InsertTypeConsistent(db.absences, db.types, db.nextAbsenceId, db.nextTypeId, row);
        db.types := db.types + [row];
        db.nextTypeId := db.nextTypeId + 1;
        return Ok(row);
      }
      var id := t.id.value;
      var stored := FindType(db.types, id);
      if stored.None? || !NomFree(db.types, f.nom.value, id) {
        return Err(PersistenceException);
      }
      var row := NewTypeRow(id, f, stored.value.dateCreation);
      UpdateTypeConsistent(db.absences, db.types, db.nextAbsenceId, db.nextTypeId, row);
      db.types := ReplaceWhere(TypeId(id), db.types, row);
      res := Ok(row);
    }

    /** delete(id): removes the type; nothing when there is none. The foreign
        key of absences refuses the delete of a type still in use. */
    method Delete(id: int) returns (thrown: Option<Exception>)
      requires db.Valid()
      modifies db`types
      ensures db.Valid() && db.absences == old(db.absences)
      ensures thrown.Some? <==> FindType(old(db.types), id).Some? && InUse(db.absences, id)
      ensures thrown.Some? ==> thrown.value == PersistenceException && db.types == old(db.types)
      ensures thrown.None? ==> db.types == Filter(NotTypeId(id), old(db.types)) && FindType(db.types, id).None?
      ensures forall t :: t in old(db.types) && t.id != id ==> t in db.types
    {
      if FindType(db.types, id).Some? && InUse(db.absences, id) {
        return Some(PersistenceException);
      }
      if FindType(db.types, id).None? {
        UnknownTypeUnused(db.absences, db.types, id);
      }
      DeleteTypeConsistent(db.absences, db.types, db.nextAbsenceId, db.nextTypeId, id);
      db.types := Filter(NotTypeId(id), db.types);
      thrown := None;
    }
  }
}
