/** The Absence and TypeAbsence JPA entities: the rows of the absences and
    types_absences tables, the beans the resources fill through their setters,
    their persist callbacks, and the WHERE and ORDER BY clauses of their named
    queries. An absence refers to its type by the type's id (the join column);
    dureeHeures is a count of hundredths of an hour (numeric(4,2)); LocalTime
    values are seconds since midnight, carried without interpretation. */
module AbsenceEntity {
  import opened Common
  import opened Dates
  import opened Sorting

  /** The length = 50 of types_absences.nom. */
  const NOM_LENGTH: int := 50
  /** The length = 255 of types_absences.description. */
  const DESCRIPTION_LENGTH: int := 255
  /** The length = 20 of absences.statut. */
  const STATUT_LENGTH: int := 20
  /** document_justificatif has no length: the provider's default varchar(255). */
  const DOCUMENT_LENGTH: int := 255
  /** numeric(4,2) holds values strictly between -100.00 and 100.00, in hundredths. */
  const DUREE_BOUND: int := 10000
  /** The initial value of Absence.statut. */
  const EN_ATTENTE: string := "EN_ATTENTE"

  // ---------------------------------------------------------------------------
  // TypeAbsence
  // ---------------------------------------------------------------------------

  /** The three fields a caller chooses for a type. */
  datatype TypeFields = TypeFields(nom: Option<string>, description: Option<string>, justificationRequise: Option<bool>)

  /** A stored type. nom is NOT NULL; justification_requise is a nullable column. */
  datatype TypeRow = TypeRow(
    id: int,
    nom: string,
    description: Option<string>,
    justificationRequise: Option<bool>,
    dateCreation: int)

  function TypeFieldsOf(t: TypeRow): TypeFields
  {
    TypeFields(Some(t.nom), t.description, t.justificationRequise)
  }

  /** The column constraints of one row: nom set and at most 50 characters,
      description at most 255. Uniqueness of nom is a table property. */
  predicate TypeInsertable(f: TypeFields)
  {
    && f.nom.Some? && |f.nom.value| <= NOM_LENGTH
    && (f.description.Some? ==> |f.description.value| <= DESCRIPTION_LENGTH)
  }

  function NewTypeRow(id: int, f: TypeFields, dateCreation: int): (t: TypeRow)
    requires TypeInsertable(f)
    ensures TypeFieldsOf(t) == f && t.id == id && t.dateCreation == dateCreation
  {
    TypeRow(id, f.nom.value, f.description, f.justificationRequise, dateCreation)
  }

  function TypeId(id: int): TypeRow -> bool
  {
    (t: TypeRow) => t.id == id
  }

  function NotTypeId(id: int): TypeRow -> bool
  {
    (t: TypeRow) => t.id != id
  }

  /** WHERE t.nom = :nom */
  function NomIs(nom: string): TypeRow -> bool
  {
    (t: TypeRow) => t.nom == nom
  }

  /** em.find(TypeAbsence.class, id): the type with that primary key, or null. */
  function FindType(types: seq<TypeRow>, id: int): (r: Option<TypeRow>)
    ensures r.Some? ==> r.value in types && r.value.id == id
    ensures r.None? <==> forall t :: t in types ==> t.id != id
  {
    match FirstIndex(TypeId(id), types)
    case None => None
    case Some(i) => Some(types[i])
  }

  /** ORDER BY t.nom, in character-code order. */
  function NomAsc(): (TypeRow, TypeRow) -> bool
  {
    (a: TypeRow, b: TypeRow) => LexLe(a.nom, b.nom)
  }

  lemma NomAscTotal()
    ensures TotalPreorder(NomAsc())
  {
    forall a: TypeRow, b: TypeRow ensures NomAsc()(a, b) || NomAsc()(b, a) {
      LexTotal(a.nom, b.nom);
    }
    forall a: TypeRow, b: TypeRow, c: TypeRow | NomAsc()(a, b) && NomAsc()(b, c) ensures NomAsc()(a, c) {
      LexTransitive(a.nom, b.nom, c.nom);
    }
  }

  /** A TypeAbsence object as the resources build it field by field. */
  class TypeAbsence {
    var id: Option<int>
    var nom: Option<string>
    var description: Option<string>
    var justificationRequise: Option<bool>
    var dateCreation: Option<int>

    /** The no-argument constructor: justificationRequise starts true. */
    constructor ()
      ensures Fields() == TypeFields(None, None, Some(true))
      ensures id.None? && dateCreation.None?
    {
      id, nom, description, justificationRequise, dateCreation := None, None, None, Some(true), None;
    }

    /** The three-argument constructor: the flag is taken as given, null included. */
    constructor WithFields(nom: Option<string>, description: Option<string>, justificationRequise: Option<bool>)
      ensures Fields() == TypeFields(nom, description, justificationRequise)
      ensures id.None? && dateCreation.None?
    {
      this.id, this.nom, this.description := None, nom, description;
      this.justificationRequise, this.dateCreation := justificationRequise, None;
    }

    /** The all-fields constructor, as em.find loads a row. */
    constructor Loaded(t: TypeRow)
      ensures Fields() == TypeFieldsOf(t) && id == Some(t.id) && dateCreation == Some(t.dateCreation)
    {
      id, nom, description := Some(t.id), Some(t.nom), t.description;
      justificationRequise, dateCreation := t.justificationRequise, Some(t.dateCreation);
    }

    function Fields(): TypeFields
      reads this
    {
      TypeFields(nom, description, justificationRequise)
    }

    /** @PrePersist: the creation time is the persist time. */
    method OnCreate(now: int)
      modifies this`dateCreation
      ensures dateCreation == Some(now)
    {
      dateCreation := Some(now);
    }
  }

  // ---------------------------------------------------------------------------
  // Absence
  // ---------------------------------------------------------------------------

  /** Everything of an absence but its id and creation time. typeAbsenceId is
      the id of the referenced TypeAbsence. */
  datatype AbsenceFields = AbsenceFields(
    employeId: Option<int>,
    typeAbsenceId: Option<int>,
    dateAbsence: Option<LocalDate>,
    heureDebut: Option<int>,
    heureFin: Option<int>,
    dureeHeures: Option<int>,
    motif: Option<string>,
    statut: Option<string>,
    justifiee: Option<bool>,
    documentJustificatif: Option<string>,
    enregistrePar: Option<int>)

  /** A stored absence: employe_id, type_absence_id, date_absence and justifiee
      are NOT NULL; date_creation is always stamped by the persist callback. */
  datatype AbsenceRow = AbsenceRow(
    id: int,
    employeId: int,
    typeAbsenceId: int,
    dateAbsence: LocalDate,
    heureDebut: Option<int>,
    heureFin: Option<int>,
    dureeHeures: Option<int>,
    motif: Option<string>,
    statut: Option<string>,
    justifiee: bool,
    documentJustificatif: Option<string>,
    enregistrePar: Option<int>,
    dateCreation: int)

  function AbsenceFieldsOf(a: AbsenceRow): AbsenceFields
  {
    AbsenceFields(Some(a.employeId), Some(a.typeAbsenceId), Some(a.dateAbsence), a.heureDebut, a.heureFin,
                  a.dureeHeures, a.motif, a.statut, Some(a.justifiee), a.documentJustificatif, a.enregistrePar)
  }

  /** The column constraints of one row; the foreign key is a table property. */
  predicate AbsenceInsertable(f: AbsenceFields)
  {
    && f.employeId.Some? && f.typeAbsenceId.Some? && f.dateAbsence.Some? && f.justifiee.Some?
    && (f.statut.Some? ==> |f.statut.value| <= STATUT_LENGTH)
    && (f.dureeHeures.Some? ==> -DUREE_BOUND < f.dureeHeures.value < DUREE_BOUND)
    && (f.documentJustificatif.Some? ==> |f.documentJustificatif.value| <= DOCUMENT_LENGTH)
  }

  function NewAbsenceRow(id: int, f: AbsenceFields, dateCreation: int): (a: AbsenceRow)
    requires AbsenceInsertable(f)
    ensures AbsenceFieldsOf(a) == f && a.id == id && a.dateCreation == dateCreation
  {
    AbsenceRow(id, f.employeId.value, f.typeAbsenceId.value, f.dateAbsence.value, f.heureDebut, f.heureFin,
               f.dureeHeures, f.motif, f.statut, f.justifiee.value, f.documentJustificatif, f.enregistrePar,
               dateCreation)
  }

  /** A row is rebuilt exactly from its fields, its id and its creation time. */
  lemma AbsenceRowRoundTrip(a: AbsenceRow)
    requires AbsenceInsertable(AbsenceFieldsOf(a))
    ensures NewAbsenceRow(a.id, AbsenceFieldsOf(a), a.dateCreation) == a
  {
  }

  /** An Absence object as the resources build it field by field. */
  class Absence {
    var id: Option<int>
    var employeId: Option<int>
    var typeAbsenceId: Option<int>
    var dateAbsence: Option<LocalDate>
    var heureDebut: Option<int>
    var heureFin: Option<int>
    var dureeHeures: Option<int>
    var motif: Option<string>
    var statut: Option<string>
    var justifiee: Option<bool>
    var documentJustificatif: Option<string>
    var enregistrePar: Option<int>
    var dateCreation: Option<int>

    /** The no-argument constructor: statut starts "EN_ATTENTE" and justifiee false. */
    constructor ()
      ensures Fields() == AbsenceFields(None, None, None, None, None, None, None, Some(EN_ATTENTE), Some(false), None, None)
      ensures id.None? && dateCreation.None?
    {
      id, employeId, typeAbsenceId, dateAbsence := None, None, None, None;
      heureDebut, heureFin, dureeHeures, motif := None, None, None, None;
      statut, justifiee, documentJustificatif, enregistrePar, dateCreation := Some(EN_ATTENTE), Some(false), None, None, None;
    }

    /** The three-argument constructor: justifiee false, statut at its initial value. */
    constructor WithType(employeId: Option<int>, typeAbsenceId: Option<int>, dateAbsence: Option<LocalDate>)
      ensures Fields() == AbsenceFields(employeId, typeAbsenceId, dateAbsence, None, None, None, None,
                                        Some(EN_ATTENTE), Some(false), None, None)
      ensures id.None? && dateCreation.None?
    {
      this.id, this.employeId, this.typeAbsenceId, this.dateAbsence := None, employeId, typeAbsenceId, dateAbsence;
      this.heureDebut, this.heureFin, this.dureeHeures, this.motif := None, None, None, None;
      this.statut, this.documentJustificatif, this.enregistrePar, this.dateCreation := Some(EN_ATTENTE), None, None, None;
      this.justifiee := Some(false);
    }

    /** The twelve-argument constructor: every field as given except statut,
        which it does not take and which keeps "EN_ATTENTE"; justifiee may be null. */
    constructor Full(id: Option<int>, employeId: Option<int>, typeAbsenceId: Option<int>, dateAbsence: Option<LocalDate>,
                     heureDebut: Option<int>, heureFin: Option<int>, dureeHeures: Option<int>, motif: Option<string>,
                     justifiee: Option<bool>, documentJustificatif: Option<string>, enregistrePar: Option<int>,
                     dateCreation: Option<int>)
      ensures Fields() == AbsenceFields(employeId, typeAbsenceId, dateAbsence, heureDebut, heureFin, dureeHeures,
                                        motif, Some(EN_ATTENTE), justifiee, documentJustificatif, enregistrePar)
      ensures this.id == id && this.dateCreation == dateCreation
    {
      this.id, this.employeId, this.typeAbsenceId, this.dateAbsence := id, employeId, typeAbsenceId, dateAbsence;
      this.heureDebut, this.heureFin, this.dureeHeures, this.motif := heureDebut, heureFin, dureeHeures, motif;
      this.statut, this.justifiee, this.documentJustificatif := Some(EN_ATTENTE), justifiee, documentJustificatif;
      this.enregistrePar, this.dateCreation := enregistrePar, dateCreation;
    }

    /** A bean holding a stored row, as em.find loads it. */
    constructor Loaded(a: AbsenceRow)
      ensures Fields() == AbsenceFieldsOf(a) && id == Some(a.id) && dateCreation == Some(a.dateCreation)
    {
      id, employeId, typeAbsenceId, dateAbsence := Some(a.id), Some(a.employeId), Some(a.typeAbsenceId), Some(a.dateAbsence);
      heureDebut, heureFin, dureeHeures, motif := a.heureDebut, a.heureFin, a.dureeHeures, a.motif;
      statut, justifiee, documentJustificatif := a.statut, Some(a.justifiee), a.documentJustificatif;
      enregistrePar, dateCreation := a.enregistrePar, Some(a.dateCreation);
    }

    function Fields(): AbsenceFields
      reads this`employeId, this`typeAbsenceId, this`dateAbsence, this`heureDebut, this`heureFin, this`dureeHeures
      reads this`motif, this`statut, this`justifiee, this`documentJustificatif, this`enregistrePar
    {
      AbsenceFields(employeId, typeAbsenceId, dateAbsence, heureDebut, heureFin, dureeHeures, motif, statut,
                    justifiee, documentJustificatif, enregistrePar)
    }

    /** @PrePersist: the creation time is the persist time. */
    method OnCreate(now: int)
      modifies this`dateCreation
      ensures dateCreation == Some(now)
    {
      dateCreation := Some(now);
    }
  }

  // ---------------------------------------------------------------------------
  // Row predicates and orders of the named queries
  // ---------------------------------------------------------------------------

  function AbsenceId(id: int): AbsenceRow -> bool
  {
    (a: AbsenceRow) => a.id == id
  }

  function NotAbsenceId(id: int): AbsenceRow -> bool
  {
    (a: AbsenceRow) => a.id != id
  }

  /** em.find(Absence.class, id). */
  function FindAbsence(absences: seq<AbsenceRow>, id: int): (r: Option<AbsenceRow>)
    ensures r.Some? ==> r.value in absences && r.value.id == id
    ensures r.None? <==> forall a :: a in absences ==> a.id != id
  {
    match FirstIndex(AbsenceId(id), absences)
    case None => None
    case Some(i) => Some(absences[i])
  }

  /** WHERE a.employeId = :employeId */
  function ForEmploye(employeId: int): AbsenceRow -> bool
  {
    (a: AbsenceRow) => a.employeId == employeId
  }

  /** WHERE a.dateAbsence BETWEEN :debut AND :fin, both ends included. */
  function InPeriode(debut: LocalDate, fin: LocalDate): AbsenceRow -> bool
  {
    (a: AbsenceRow) => Key(debut) <= Key(a.dateAbsence) <= Key(fin)
  }

  /** WHERE a.employeId IN :employeIds */
  function InEquipe(employeIds: seq<int>): AbsenceRow -> bool
  {
    (a: AbsenceRow) => a.employeId in employeIds
  }

  /** WHERE a.justifiee = false AND a.typeAbsence.justificationRequise = true.
      The implicit join drops an absence whose type is missing, and a NULL
      flag does not compare equal to true. */
  function NonJustifiee(types: seq<TypeRow>): AbsenceRow -> bool
  {
    (a: AbsenceRow) => !a.justifiee && FindType(types, a.typeAbsenceId).Some?
                       && FindType(types, a.typeAbsenceId).value.justificationRequise == Some(true)
  }

  /** ORDER BY a.dateAbsence DESC */
  function DateDesc(): (AbsenceRow, AbsenceRow) -> bool
  {
    (a: AbsenceRow, b: AbsenceRow) => Key(a.dateAbsence) >= Key(b.dateAbsence)
  }

  /** ORDER BY a.dateAbsence */
  function DateAsc(): (AbsenceRow, AbsenceRow) -> bool
  {
    (a: AbsenceRow, b: AbsenceRow) => Key(a.dateAbsence) <= Key(b.dateAbsence)
  }

  lemma DateOrdersTotal()
    ensures TotalPreorder(DateDesc()) && TotalPreorder(DateAsc())
  {
  }

  /** Ids grow with insertion order. */
  function AbsenceIdBefore(): (AbsenceRow, AbsenceRow) -> bool
  {
    (a: AbsenceRow, b: AbsenceRow) => a.id < b.id
  }

  function TypeIdBefore(): (TypeRow, TypeRow) -> bool
  {
    (a: TypeRow, b: TypeRow) => a.id < b.id
  }

  /** The unique constraint on nom, as a relation between two rows. */
  function DistinctNom(): (TypeRow, TypeRow) -> bool
  {
    (a: TypeRow, b: TypeRow) => a.nom != b.nom
  }
}
