/**
 * The guards `parseColumns` puts each annotated element through, stated as
 * pure functions: the element kind, then the field's modifiers
 * (`checkColumnModifiers`), then the enclosing element, then the class's
 * modifiers and kind (`checkTableModifiers`). Each guard stops at its first
 * failure and reports exactly one diagnostic for it.
 */
module Validation {
  import opened Elements

  const NotAFieldMessage := "@Column annotation should be applied only to local variables"
  const NotInsideClassMessage := "@Column annotation located not inside of class"
  const PrivateClassMessage := "Classes marked with @Table cannot be private"
  const NotAClassMessage := "Only classes can be marked with @Table annotation"
  const PrivateFieldMessage := "Field marked with @Column cannot be private"
  const FinalFieldMessage := "Field marked with @Column cannot be final"
  const StaticFieldMessage := "Field marked with @Column cannot be static"

  /** What an error diagnostic is attached to. */
  datatype Subject = AtElement(element: Element) | AtType(table: TypeElement)

  /** An error-severity message handed to the compiler's messager. */
  datatype Diagnostic = Diagnostic(message: string, subject: Subject)

  /** The modifiers a column field must not carry, in the order they are checked. */
  const ForbiddenFieldModifiers: seq<Modifier> := [Private, Final, Static]

  /** The diagnostic text for a forbidden field modifier. */
  function FieldModifierMessage(m: Modifier): string
  {
    match m
    case Private => PrivateFieldMessage
    case Final => FinalFieldMessage
    case _ => StaticFieldMessage
  }

  /** The members of `order` that are in `present`, in the order of `order`. */
  function Present(order: seq<Modifier>, present: set<Modifier>): (r: seq<Modifier>)
    ensures forall m :: m in r <==> m in order && m in present
  {
    if order == [] then []
    else (if order[0] in present then [order[0]] else []) + Present(order[1..], present)
  }

  /** The forbidden modifiers a field carries, in check order. */
  function FieldViolations(modifiers: set<Modifier>): seq<Modifier>
  {
    Present(ForbiddenFieldModifiers, modifiers)
  }

  /** The violations listed one by one: private first, then final, then static. */
  lemma FieldViolationsInOrder(modifiers: set<Modifier>)
    ensures FieldViolations(modifiers)
            == (if Private in modifiers then [Private] else [])
               + (if Final in modifiers then [Final] else [])
               + (if Static in modifiers then [Static] else [])
  {
    var order := ForbiddenFieldModifiers;
    assert order[1..] == [Final, Static];
    assert order[1..][1..] == [Static];
    assert order[1..][1..][1..] == [];
    assert Present([Static], modifiers) == (if Static in modifiers then [Static] else []);
    assert Present([Final, Static], modifiers)
        == (if Final in modifiers then [Final] else []) + Present([Static], modifiers);
  }

  /**
   * `checkColumnModifiers` as a value: `None` when the field passes, else the
   * one message it reports. The field passes iff it is neither private nor
   * final nor static; otherwise the message is that of the first forbidden
   * modifier it carries, in the order private, final, static.
   */
  function FieldModifierError(modifiers: set<Modifier>): (r: Option<string>)
    ensures r.None? <==> Private !in modifiers && Final !in modifiers && Static !in modifiers
    ensures r.None? <==> FieldViolations(modifiers) == []
    ensures r.Some? ==> r.value == FieldModifierMessage(FieldViolations(modifiers)[0])
  {
    FieldViolationsInOrder(modifiers);
    if Private in modifiers then Some(PrivateFieldMessage)
    else if Final in modifiers then Some(FinalFieldMessage)
    else if Static in modifiers then Some(StaticFieldMessage)
    else None
  }

  /** The two ways an enclosing class can be refused, in check order. */
  datatype ClassViolation = PrivateClass | NotAClass

  /** The rules a class violates, in check order. */
  function ClassViolations(table: TypeElement): seq<ClassViolation>
  {
    (if Private in table.modifiers then [PrivateClass] else [])
    + (if table.kind != Class then [NotAClass] else [])
  }

  function ClassViolationMessage(v: ClassViolation): string
  {
    match v
    case PrivateClass => PrivateClassMessage
    case NotAClass => NotAClassMessage
  }

  /**
   * `checkTableModifiers` as a value: `None` when the class passes. A private
   * class is refused as private whatever its kind; otherwise anything but a
   * plain class is refused for its kind.
   */
  function ClassError(table: TypeElement): (r: Option<string>)
    ensures r.None? <==> Private !in table.modifiers && table.kind == Class
    ensures r.None? <==> ClassViolations(table) == []
    ensures r.Some? ==> r.value == ClassViolationMessage(ClassViolations(table)[0])
  {
    if Private in table.modifiers then Some(PrivateClassMessage)
    else if table.kind != Class then Some(NotAClassMessage)
    else None
  }

  /** What the loop body of `parseColumns` decides for one element. */
  datatype Verdict =
    | Accepted(table: TypeElement)   // added to the set of `table`
    | Rejected                       // reported and skipped
    | Aborted                        // no enclosing class: `checkTableModifiers(null)` throws

  predicate IsFieldElement(e: Element)
  {
    e.isVariable && e.kind == Field
  }

  /**
   * The guards in source order. A field is accepted exactly when it is a
   * field element, passes the modifier check, sits in a type declaration and
   * that declaration passes the class check; it is then filed under its own
   * enclosing class.
   */
  function Classify(e: Element): (v: Verdict)
    ensures v.Accepted? <==>
              IsFieldElement(e) && FieldViolations(e.modifiers) == [] &&
              e.enclosing.EnclosedByType? && ClassViolations(e.enclosing.table) == []
    ensures v.Accepted? ==> v.table == e.enclosing.table
    ensures v.Aborted? <==>
              IsFieldElement(e) && FieldViolations(e.modifiers) == [] && e.enclosing.EnclosedByOther?
  {
    if !IsFieldElement(e) then Rejected
    else if FieldModifierError(e.modifiers).Some? then Rejected
    else match e.enclosing
      case EnclosedByOther => Aborted
      case EnclosedByType(table) => if ClassError(table).Some? then Rejected else Accepted(table)
  }

  /**
   * The diagnostics reported while one element is processed: none for an
   * accepted field and exactly one for any other outcome.
   */
  function ElementDiagnostics(e: Element): (d: seq<Diagnostic>)
    ensures Classify(e).Accepted? <==> d == []
    ensures |d| <= 1
    ensures Classify(e).Aborted? ==> d == [Diagnostic(NotInsideClassMessage, AtElement(e))]
    ensures !IsFieldElement(e) ==> d == [Diagnostic(NotAFieldMessage, AtElement(e))]
  {
    if !IsFieldElement(e) then [Diagnostic(NotAFieldMessage, AtElement(e))]
    else match FieldModifierError(e.modifiers)
      case Some(message) => [Diagnostic(message, AtElement(e))]
      case None =>
        match e.enclosing
        case EnclosedByOther => [Diagnostic(NotInsideClassMessage, AtElement(e))]
        case EnclosedByType(table) =>
          match ClassError(table)
          case Some(message) => [Diagnostic(message, AtType(table))]
          case None => []
  }

  /** A field with a forbidden modifier draws exactly the diagnostic of the first one it carries. */
  lemma ForbiddenModifierReportedOnce(e: Element)
    requires IsFieldElement(e)
    requires FieldViolations(e.modifiers) != []
    ensures ElementDiagnostics(e)
            == [Diagnostic(FieldModifierMessage(FieldViolations(e.modifiers)[0]), AtElement(e))]
    ensures !Classify(e).Accepted?
  {
  }
}
