/**
 * The compiler's reflective view of a program, reduced to the values the
 * annotation processor looks at: element kinds, modifiers, type mirrors with
 * their superclass chain, the enclosing class of an annotated field and the
 * payload of its @Column annotation.
 */
module Elements {

  /** A nullable value: `None` stands for Java's `null`. */
  datatype Option<T> = None | Some(value: T)

  /** The element modifiers the processor inspects (and the others, lumped together). */
  datatype Modifier = Public | Protected | Private | Abstract | Static | Final | Transient | Volatile | OtherModifier

  /** The kinds of program element the processor can meet. */
  datatype ElementKind =
    | Field | LocalVariable | Parameter | Method | Constructor
    | Class | Interface | Enum | AnnotationType | OtherKind

  /**
   * A type as the compiler presents it. `printed` is the type's `toString()`
   * (for example "java.lang.Integer", "int", "byte[]", "java.lang.Enum<E>").
   * A `DeclaredType` is a class or interface type; every other type
   * (primitives, arrays, type variables, the "no type" above
   * java.lang.Object) is an `OtherType`.
   */
  datatype TypeMirror =
    | DeclaredType(printed: string, element: DeclaredElement)
    | OtherType(printed: string)

  /**
   * What `asElement()` yields for a declared type: a type declaration with
   * its superclass, or some other element.
   */
  datatype DeclaredElement =
    | TypeDeclaration(superclass: TypeMirror)
    | OtherElement

  /**
   * A class, interface, enum or annotation declaration that encloses an
   * annotated field. `packageName` is the qualified name of its package
   * ("" for the unnamed package).
   */
  datatype TypeElement = TypeElement(
    qualifiedName: string,
    packageName: string,
    kind: ElementKind,
    modifiers: set<Modifier>)

  /** The element that directly encloses an annotated element. */
  datatype Enclosing = EnclosedByType(table: TypeElement) | EnclosedByOther

  /** The payload of @Column: `name` and `defaultValue`, each possibly null. */
  datatype ColumnAnnotation = ColumnAnnotation(name: Option<string>, defaultValue: Option<string>)

  /**
   * An element carrying @Column. `isVariable` says whether it is a
   * VariableElement (a field, parameter or local variable).
   */
  datatype Element = Element(
    isVariable: bool,
    kind: ElementKind,
    modifiers: set<Modifier>,
    simpleName: string,
    enclosing: Enclosing,
    asType: TypeMirror,
    annotation: ColumnAnnotation)

  /** Java's `s == null || s.isEmpty()`. */
  predicate NullOrEmpty(s: Option<string>)
  {
    s.None? || s.value == []
  }

  /** "Primitive" in the processor's sense: the type is not a DeclaredType. */
  predicate IsDeclared(t: TypeMirror)
  {
    t.DeclaredType?
  }
}
