/**
 * The processor itself: one round of `parseColumns` over the annotated
 * elements, the guards that report errors through the messager, the
 * grouping of accepted fields by enclosing class, and `generate`, which
 * produces one filler class per group.
 *
 * The messager is modelled as the list `messages` of diagnostics reported so
 * far, and the filer as the list `files` of source files created so far
 * (name, originating class, text).
 */
module Processor {
  import opened Elements
  import opened Validation
  import opened Naming
  import opened CodeText
  import opened LoadEmitter
  import opened FillEmitter

  /** A generated source file: its name, the class it was created for, and its text. */
  datatype SourceFile = SourceFile(name: string, origin: TypeElement, text: string)

  /** How a round ends: normally, or with the exception thrown for an element outside any class. */
  datatype Outcome = Completed | Stopped(at: Element)

  // ----- Grouping of accepted fields -----

  /**
   * One step of `parseColumns` on the map: an accepted field is added to the
   * set of its enclosing class, the set being created on first use; any other
   * element leaves the map as it is.
   */
  function AddColumn(tables: map<TypeElement, set<Element>>, element: Element): map<TypeElement, set<Element>>
  {
    match Classify(element)
    case Accepted(table) => tables[table := (if table in tables then tables[table] else {}) + {element}]
    case _ => tables
  }

  /** The map `parseColumns` builds from the elements it gets through. */
  function Tables(elements: seq<Element>): map<TypeElement, set<Element>>
  {
    if elements == [] then map[]
    else AddColumn(Tables(elements[..|elements| - 1]), elements[|elements| - 1])
  }

  /** A field is in the set of a class exactly when it is accepted with that class as its enclosing class. */
  lemma {:induction false} TablesMembership(elements: seq<Element>, table: TypeElement, element: Element)
    ensures (table in Tables(elements) && element in Tables(elements)[table])
            <==> (element in elements && Classify(element) == Accepted(table))
  {
    if elements != [] {
      var init := elements[..|elements| - 1];
      TablesMembership(init, table, element);
      assert elements == init + [elements[|elements| - 1]];
    }
  }

  /** No class is given an empty set. */
  lemma {:induction false} TablesGroupsNonEmpty(elements: seq<Element>, table: TypeElement)
    requires table in Tables(elements)
    ensures Tables(elements)[table] != {}
  {
    var init := elements[..|elements| - 1];
    if table in Tables(init) {
      TablesGroupsNonEmpty(init, table);
    }
  }

  /** A class has a set exactly when at least one of its fields is accepted. */
  lemma TablesKeys(elements: seq<Element>, table: TypeElement)
    ensures table in Tables(elements) <==> exists e :: e in elements && Classify(e) == Accepted(table)
  {
    if table in Tables(elements) {
      TablesGroupsNonEmpty(elements, table);
      var e :| e in Tables(elements)[table];
      TablesMembership(elements, table, e);
    } else {
      forall e | e in elements
        ensures Classify(e) != Accepted(table)
      {
        TablesMembership(elements, table, e);
      }
    }
  }

  /** Each accepted field is in exactly one set: that of its own enclosing class. */
  lemma FieldInOneGroup(elements: seq<Element>, element: Element, table: TypeElement, other: TypeElement)
    requires table in Tables(elements) && element in Tables(elements)[table]
    requires other in Tables(elements) && element in Tables(elements)[other]
    ensures element.enclosing.EnclosedByType? && table == other == element.enclosing.table
  {
    TablesMembership(elements, table, element);
    TablesMembership(elements, other, element);
  }

  /** A class that fails the class check never gets a set. */
  lemma NoGroupForRejectedClass(elements: seq<Element>, table: TypeElement)
    requires ClassViolations(table) != []
    ensures table !in Tables(elements)
  {
    TablesKeys(elements, table);
    forall e | e in elements
      ensures Classify(e) != Accepted(table)
    {
    }
  }

  /** Every class that gets a set encloses one of the elements. */
  lemma GroupedClassesEncloseElements(elements: seq<Element>, table: TypeElement)
    requires table in Tables(elements)
    ensures exists e :: e in elements && e.enclosing == EnclosedByType(table)
  {
    TablesKeys(elements, table);
    var e :| e in elements && Classify(e) == Accepted(table);
    assert e.enclosing == EnclosedByType(table);
  }

  // ----- What a round reports -----

  /** The position of the first item satisfying `p`, or the length when none does. */
  function FirstWhere<T>(s: seq<T>, p: T -> bool): (k: nat)
    ensures k <= |s|
  {
    if s == [] then 0
    else if p(s[0]) then 0
    else 1 + FirstWhere(s[1..], p)
  }

  /** `FirstWhere` points at an item satisfying `p`, and no earlier item satisfies it. */
  lemma {:induction false} FirstWhereIsFirst<T>(s: seq<T>, p: T -> bool)
    ensures forall j :: 0 <= j < FirstWhere(s, p) ==> !p(s[j])
    ensures FirstWhere(s, p) < |s| ==> p(s[FirstWhere(s, p)])
  {
    if s != [] && !p(s[0]) {
      var rest := s[1..];
      FirstWhereIsFirst(rest, p);
      forall j | 0 < j < FirstWhere(s, p)
        ensures !p(s[j])
      {
        assert s[j] == rest[j - 1];
      }
    }
  }

  /** Scanning up to `FirstWhere`: item `i` satisfies `p` exactly when the scan ends there. */
  lemma FirstWhereStep<T>(s: seq<T>, p: T -> bool, i: nat)
    requires i < |s| && i <= FirstWhere(s, p)
    ensures p(s[i]) <==> FirstWhere(s, p) == i
  {
    FirstWhereIsFirst(s, p);
  }

  /** Does processing this element end the round? */
  predicate Aborts(e: Element)
  {
    Classify(e).Aborted?
  }

  /** The index of the first element that makes the round abort, or the length if none does. */
  function AbortIndex(elements: seq<Element>): (k: nat)
    ensures k <= |elements|
  {
    FirstWhere(elements, Aborts)
  }

  /** The round aborts at the first element that aborts, and at none before it. */
  lemma AbortIndexIsFirstAbort(elements: seq<Element>)
    ensures forall j :: 0 <= j < AbortIndex(elements) ==> !Classify(elements[j]).Aborted?
    ensures AbortIndex(elements) < |elements| ==> Classify(elements[AbortIndex(elements)]).Aborted?
  {
    FirstWhereIsFirst(elements, Aborts);
  }

  /** The diagnostics reported for the elements, in order. */
  function AllDiagnostics(elements: seq<Element>): seq<Diagnostic>
  {
    if elements == [] then []
    else AllDiagnostics(elements[..|elements| - 1]) + ElementDiagnostics(elements[|elements| - 1])
  }

  /** The elements the round gets through: all of them, or up to and including the one it aborts on. */
  function Processed(elements: seq<Element>): seq<Element>
  {
    var k := AbortIndex(elements);
    if k < |elements| then elements[..k + 1] else elements
  }

  /** One more element through the guards: its group update comes last. */
  lemma TablesStep(elements: seq<Element>, i: nat)
    requires i < |elements|
    ensures Tables(elements[..i + 1]) == AddColumn(Tables(elements[..i]), elements[i])
  {
    assert elements[..i + 1][..i] == elements[..i];
  }

  /** One more element through the guards: its diagnostics come last. */
  lemma DiagnosticsStep(elements: seq<Element>, i: nat)
    requires i < |elements|
    ensures AllDiagnostics(elements[..i + 1]) == AllDiagnostics(elements[..i]) + ElementDiagnostics(elements[i])
  {
    assert elements[..i + 1][..i] == elements[..i];
  }

  /** Among the elements not yet known to be before the abort, the round aborts at the first that aborts. */
  lemma AbortIndexStep(elements: seq<Element>, i: nat)
    requires i < |elements| && i <= AbortIndex(elements)
    ensures Classify(elements[i]).Aborted? <==> AbortIndex(elements) == i
    ensures Classify(elements[i]).Aborted? ==> Processed(elements) == elements[..i + 1]
  {
    FirstWhereStep(elements, Aborts, i);
  }

  /** One diagnostic per element the round rejects or aborts on, none per accepted field. */
  lemma {:induction false} OneDiagnosticPerRefusal(elements: seq<Element>)
    ensures |AllDiagnostics(elements)| == |elements| - CountAccepted(elements)
  {
    if elements != [] {
      OneDiagnosticPerRefusal(elements[..|elements| - 1]);
    }
  }

  function CountAccepted(elements: seq<Element>): nat
  {
    if elements == [] then 0
    else CountAccepted(elements[..|elements| - 1]) + (if Classify(elements[|elements| - 1]).Accepted? then 1 else 0)
  }

  // ----- The generated class -----

  /** `getClassName` can cut the package prefix off the class's qualified name. */
  predicate NameFitsPackage(table: TypeElement)
  {
    |table.packageName| + 1 <= |table.qualifiedName|
  }

  /** The simple name of the generated filler class. */
  function FillerClassName(table: TypeElement, suffix: string): string
    requires NameFitsPackage(table)
  {
    GetClassName(table.qualifiedName, table.packageName) + suffix
  }

  /** The name the filer is asked for: the filler class, qualified by the model's package. */
  function FillerFileName(table: TypeElement, suffix: string): string
    requires NameFitsPackage(table)
  {
    table.packageName + "." + FillerClassName(table, suffix)
  }

  const Banner := "//Generated by ActiveAndroid. Do not modify\n"
  const Imports := "import java.util.ArrayList;\n" + "import java.util.Arrays;\n" + "import java.util.List;\n\n"
                   + "import com.activeandroid.internal.ModelHelper;\n"
                   + "import com.activeandroid.internal.ModelFiller;\n" + "\n"
  const LoadSignature := "  public void loadFromCursor(com.activeandroid.Model genericModel, android.database.Cursor "
                         + CursorVar + ") {\n"
  /** The call through to the superclass's filler that opens `loadFromCursor`. */
  const SuperLoadCall := "    if (superModelFiller != null)\n"
                         + "       superModelFiller.loadFromCursor(genericModel, " + CursorVar + ");\n"
  const ColumnsList := "    List<String> " + ColumnsOrderedVar + " = new ArrayList<String>(Arrays.asList("
                       + CursorVar + ".getColumnNames()));\n"
  /** The end of `loadFromCursor` and the signature of `fillContentValues`. */
  const MethodBreak := "  }\n\n" + "  "
                       + "public void fillContentValues(com.activeandroid.Model genericModel, android.content.ContentValues "
                       + ContentValuesVar + ") {\n"
  /** The call through to the superclass's filler that opens `fillContentValues`. */
  const SuperFillCall := "    if (superModelFiller != null)\n"
                         + "       superModelFiller.fillContentValues(genericModel, " + ContentValuesVar + ");\n"
  const Closing := "  }\n" + "}"

  /** The banner and the package declaration the file opens with. */
  function FileHeader(packageName: string): string
  {
    Banner + "package " + packageName + ";\n\n"
  }

  /** The declaration of the filler class. */
  function ClassDeclaration(fillerClassName: string): string
  {
    "public class " + fillerClassName + " extends ModelFiller {\n\n"
  }

  /** The imports, the class declaration and the signature of `loadFromCursor`. */
  function ClassOpening(fillerClassName: string): string
  {
    Imports + ClassDeclaration(fillerClassName) + LoadSignature
  }

  /** The cast of the generic model to the model class. */
  function ModelCast(className: string): string
  {
    "    " + className + " " + ModelVar + " = (" + className + ") genericModel;\n"
  }

  /** The parts of the class `generate` writes, in order, given the two emitted method bodies. */
  function SourceParts(packageName: string, className: string, fillerClassName: string,
                       loadCode: string, fillCode: string): seq<string>
  {
    [FileHeader(packageName), ClassOpening(fillerClassName), SuperLoadCall, ColumnsList, ModelCast(className),
     loadCode, MethodBreak, SuperFillCall, ModelCast(className), fillCode, Closing]
  }

  /** The text `generate` writes for a class. */
  function SourceText(packageName: string, className: string, fillerClassName: string,
                      loadCode: string, fillCode: string): string
  {
    Join(SourceParts(packageName, className, fillerClassName, loadCode, fillCode))
  }

  /** `sub` occurs in `s` at position `at`. */
  predicate OccursAt(s: string, sub: string, at: int)
  {
    0 <= at && at + |sub| <= |s| && s[at..at + |sub|] == sub
  }

  /** The `k`th part sits in the joined text right after the parts before it. */
  lemma PartAt(parts: seq<string>, k: nat)
    requires k < |parts|
    ensures OccursAt(Join(parts), parts[k], |Join(parts[..k])|)
  {
    var before := Join(parts[..k]);
    assert parts[..k] + parts[k..] == parts;
    JoinAppend(parts[..k], parts[k..]);
    JoinFrom(parts, k);
    assert Join(parts) == before + (parts[k] + Join(parts[k + 1..]));
  }

  /** The parts before `j` end no earlier than the `k`th part, for `k < j`. */
  lemma PartsBefore(parts: seq<string>, k: nat, j: nat)
    requires k < j <= |parts|
    ensures |Join(parts[..k])| + |parts[k]| <= |Join(parts[..j])|
  {
    assert parts[..j] == parts[..k] + parts[k..j];
    JoinAppend(parts[..k], parts[k..j]);
    JoinFrom(parts[k..j], 0);
  }

  /**
   * The layout of the generated class: it opens with the banner and the
   * model's package; the load method calls the superclass's filler before the
   * load code; the fill method, which follows, does the same before the fill
   * code.
   */
  lemma SourceLayout(packageName: string, className: string, fillerClassName: string,
                     loadCode: string, fillCode: string)
    returns (superLoad: nat, load: nat, superFill: nat, fill: nat)
    ensures FileHeader(packageName) <= SourceText(packageName, className, fillerClassName, loadCode, fillCode)
    ensures OccursAt(SourceText(packageName, className, fillerClassName, loadCode, fillCode), SuperLoadCall, superLoad)
    ensures OccursAt(SourceText(packageName, className, fillerClassName, loadCode, fillCode), loadCode, load)
    ensures OccursAt(SourceText(packageName, className, fillerClassName, loadCode, fillCode), SuperFillCall, superFill)
    ensures OccursAt(SourceText(packageName, className, fillerClassName, loadCode, fillCode), fillCode, fill)
    ensures superLoad + |SuperLoadCall| <= load
    ensures load + |loadCode| <= superFill
    ensures superFill + |SuperFillCall| <= fill
  {
    var parts := SourceParts(packageName, className, fillerClassName, loadCode, fillCode);
    PartAt(parts, 0);
    assert parts[..0] == [];
    superLoad, load, superFill, fill := PartsInOrder(parts, 2, 5, 7, 9);
  }

  /**
   * Where the class is declared and the model cast: the declaration of the
   * filler class comes before the load method's call to the superclass's
   * filler, and in each method the cast of the generic model sits right
   * before the emitted code, the load method's before the fill method's.
   */
  lemma SourceDeclarations(packageName: string, className: string, fillerClassName: string,
                           loadCode: string, fillCode: string)
    returns (declaration: nat, superLoad: nat, loadCast: nat, fillCast: nat)
    ensures OccursAt(SourceText(packageName, className, fillerClassName, loadCode, fillCode),
                     ClassDeclaration(fillerClassName), declaration)
    ensures OccursAt(SourceText(packageName, className, fillerClassName, loadCode, fillCode), SuperLoadCall, superLoad)
    ensures declaration + |ClassDeclaration(fillerClassName)| <= superLoad
    ensures OccursAt(SourceText(packageName, className, fillerClassName, loadCode, fillCode), ModelCast(className), loadCast)
    ensures OccursAt(SourceText(packageName, className, fillerClassName, loadCode, fillCode), loadCode,
                     loadCast + |ModelCast(className)|)
    ensures OccursAt(SourceText(packageName, className, fillerClassName, loadCode, fillCode), ModelCast(className), fillCast)
    ensures OccursAt(SourceText(packageName, className, fillerClassName, loadCode, fillCode), fillCode,
                     fillCast + |ModelCast(className)|)
    ensures superLoad + |SuperLoadCall| <= loadCast && loadCast + |ModelCast(className)| + |loadCode| <= fillCast
  {
    var parts := SourceParts(packageName, className, fillerClassName, loadCode, fillCode);
    declaration, superLoad, loadCast, fillCast :=
      DeclarationAndCasts(parts, Imports, ClassDeclaration(fillerClassName), LoadSignature);
  }

  /**
   * `SourceDeclarations` over any parts laid out like `SourceParts`: the
   * middle of part 1 ends before part 2; part 4 is right before part 5, and
   * part 8 right before part 9, after part 5.
   */
  lemma DeclarationAndCasts(parts: seq<string>, a: string, b: string, c: string)
    returns (declaration: nat, superLoad: nat, loadCast: nat, fillCast: nat)
    requires 9 < |parts| && parts[1] == a + b + c
    ensures OccursAt(Join(parts), b, declaration) && OccursAt(Join(parts), parts[2], superLoad)
    ensures declaration + |b| <= superLoad
    ensures OccursAt(Join(parts), parts[4], loadCast) && OccursAt(Join(parts), parts[5], loadCast + |parts[4]|)
    ensures OccursAt(Join(parts), parts[8], fillCast) && OccursAt(Join(parts), parts[9], fillCast + |parts[8]|)
    ensures superLoad + |parts[2]| <= loadCast && loadCast + |parts[4]| + |parts[5]| <= fillCast
  {
    var opening := PartsAdjacent(parts, 1);
    OccursInside(Join(parts), a, b, c, opening);
    declaration, superLoad := opening + |a|, opening + |parts[1]|;
    loadCast := PartsAdjacent(parts, 4);
    fillCast := PartsAdjacent(parts, 8);
    PartsBefore(parts, 2, 4);
    PartsBefore(parts, 5, 8);
  }

  /** Two neighbouring parts sit next to each other in the joined text. */
  lemma PartsAdjacent(parts: seq<string>, k: nat) returns (at: nat)
    requires k + 1 < |parts|
    ensures at == |Join(parts[..k])| && at + |parts[k]| == |Join(parts[..k + 1])|
    ensures OccursAt(Join(parts), parts[k], at) && OccursAt(Join(parts), parts[k + 1], at + |parts[k]|)
  {
    PartAt(parts, k);
    PartAt(parts, k + 1);
    assert parts[..k + 1] == parts[..k] + [parts[k]];
    JoinAppend(parts[..k], [parts[k]]);
    JoinFrom([parts[k]], 0);
    at := |Join(parts[..k])|;
  }

  /** The middle piece of an occurrence occurs where the first piece ends. */
  lemma OccursInside(s: string, a: string, b: string, c: string, at: int)
    requires OccursAt(s, a + b + c, at)
    ensures OccursAt(s, b, at + |a|)
  {
    var whole := a + b + c;
    assert whole[|a|..|a| + |b|] == b;
    assert s[at + |a|..at + |a| + |b|] == s[at..at + |whole|][|a|..|a| + |b|];
  }

  /** Four parts, taken in order, occur in the joined text in that order, without overlapping. */
  lemma PartsInOrder(parts: seq<string>, i: nat, j: nat, k: nat, l: nat)
    returns (pi: nat, pj: nat, pk: nat, pl: nat)
    requires i < j < k < l < |parts|
    ensures OccursAt(Join(parts), parts[i], pi) && OccursAt(Join(parts), parts[j], pj)
    ensures OccursAt(Join(parts), parts[k], pk) && OccursAt(Join(parts), parts[l], pl)
    ensures pi + |parts[i]| <= pj && pj + |parts[j]| <= pk && pk + |parts[k]| <= pl
  {
    PartAt(parts, i);
    PartAt(parts, j);
    PartAt(parts, k);
    PartAt(parts, l);
    PartsBefore(parts, i, j);
    PartsBefore(parts, j, k);
    PartsBefore(parts, k, l);
    pi, pj, pk, pl := |Join(parts[..i])|, |Join(parts[..j])|, |Join(parts[..k])|, |Join(parts[..l])|;
  }

  /**
   * For a class `p.Outer.Inner` the file is `p.Outer$Inner<suffix>`: same
   * package, nesting dots turned into '$'.
   */
  lemma FillerFileNameOfNested(packageName: string, relativeName: string, table: TypeElement, suffix: string)
    requires table.qualifiedName == packageName + "." + relativeName
    requires table.packageName == packageName
    ensures NameFitsPackage(table)
    ensures FillerFileName(table, suffix) == packageName + "." + ReplaceChar(relativeName, '.', '$') + suffix
  {
    NestedClassName(packageName, relativeName);
  }

  /** `order` lists every member of `s` exactly once. */
  predicate IsEnumeration<T>(order: seq<T>, s: set<T>)
  {
    (forall x :: x in order ==> x in s) && (forall x :: x in s ==> x in order) &&
    (forall i, j :: 0 <= i < j < |order| ==> order[i] != order[j])
  }

  /** The file `generate` creates for `table`, given the two emitted method bodies. */
  function GeneratedFile(table: TypeElement, loadCode: string, fillCode: string, suffix: string): SourceFile
    requires NameFitsPackage(table)
  {
    SourceFile(FillerFileName(table, suffix), table,
               SourceText(table.packageName, table.qualifiedName, FillerClassName(table, suffix), loadCode, fillCode))
  }

  /**
   * The file `generate` creates is named after the class it declares: the
   * filer gets the package, a dot and the filler class name, and the text
   * declares `public class <that name> extends ModelFiller`.
   */
  lemma GeneratedFileDeclaresFiller(table: TypeElement, loadCode: string, fillCode: string, suffix: string)
    returns (declaration: nat)
    requires NameFitsPackage(table)
    ensures GeneratedFile(table, loadCode, fillCode, suffix).name
            == table.packageName + "." + FillerClassName(table, suffix)
    ensures OccursAt(GeneratedFile(table, loadCode, fillCode, suffix).text,
                     ClassDeclaration(FillerClassName(table, suffix)), declaration)
  {
    var superLoad, loadCast, fillCast;
    declaration, superLoad, loadCast, fillCast :=
      SourceDeclarations(table.packageName, table.qualifiedName, FillerClassName(table, suffix), loadCode, fillCode);
  }

  /**
   * `file` is what `generate` produces for `table` and its fields: the filler
   * file name, and the class text around the two method bodies, both emitted
   * over the same iteration order of the (unchanged) set of fields.
   */
  ghost predicate GeneratedFor(file: SourceFile, table: TypeElement, columns: set<Element>, suffix: string)
  {
    NameFitsPackage(table) &&
    exists order: seq<Element> ::
      IsEnumeration(order, columns) &&
      file == GeneratedFile(table, LoadFromCursorCode(order), FillContentValuesCode(order), suffix)
  }

  /** Each of `files` was generated for a class of `tables` and that class's fields. */
  ghost predicate AllGeneratedFor(files: seq<SourceFile>, tables: map<TypeElement, set<Element>>, suffix: string)
  {
    forall i :: 0 <= i < |files| ==>
      files[i].origin in tables && GeneratedFor(files[i], files[i].origin, tables[files[i].origin], suffix)
  }

  /** `files` holds exactly one generated file per class of `tables`. */
  ghost predicate OneFilePerTable(files: seq<SourceFile>, tables: map<TypeElement, set<Element>>, suffix: string)
  {
    AllGeneratedFor(files, tables, suffix) &&
    (forall i, j :: 0 <= i < j < |files| ==> files[i].origin != files[j].origin) &&
    (forall table :: table in tables ==> exists i :: 0 <= i < |files| && files[i].origin == table)
  }

  lemma DropPrefix<T>(a: seq<T>, b: seq<T>)
    ensures (a + b)[|a|..] == b
  {
  }

  /** One more file generated for a class of `tables` keeps all files generated for their classes. */
  lemma AllGeneratedForSnoc(files: seq<SourceFile>, file: SourceFile,
                            tables: map<TypeElement, set<Element>>, suffix: string)
    requires AllGeneratedFor(files, tables, suffix)
    requires file.origin in tables && GeneratedFor(file, file.origin, tables[file.origin], suffix)
    ensures AllGeneratedFor(files + [file], tables, suffix)
  {
    forall i | 0 <= i < |files|
      ensures (files + [file])[i] == files[i]
    {
    }
  }

  /**
   * Files generated one per class, in the order of `origins`, which lists
   * each class of `tables` once, are exactly one file per class.
   */
  lemma OneFilePerTableOf(files: seq<SourceFile>, origins: seq<TypeElement>,
                          tables: map<TypeElement, set<Element>>, suffix: string)
    requires |files| == |origins|
    requires IsEnumeration(origins, tables.Keys)
    requires forall i :: 0 <= i < |files| ==> files[i].origin == origins[i]
    requires AllGeneratedFor(files, tables, suffix)
    ensures OneFilePerTable(files, tables, suffix)
  {
    forall table | table in tables
      ensures exists i :: 0 <= i < |files| && files[i].origin == table
    {
      var i :| 0 <= i < |origins| && origins[i] == table;
      assert files[i].origin == table;
    }
  }

  /**
   * Every class an accepted field is filed under has a qualified name at least
   * as long as its package name plus the dot, so `getClassName` can cut it.
   */
  predicate NamesFit(annotated: seq<Element>)
  {
    forall e :: e in annotated && Classify(e).Accepted? ==> NameFitsPackage(Classify(e).table)
  }

  /** An arbitrary iteration order of a set, as a `HashSet` iterator yields it. */
  method Enumerate<T>(s: set<T>) returns (order: seq<T>)
    ensures IsEnumeration(order, s)
  {
    order := [];
    var rest := s;
    while rest != {}
      invariant rest <= s
      invariant forall x :: x in order <==> x in s && x !in rest
      invariant forall i, j :: 0 <= i < j < |order| ==> order[i] != order[j]
      decreases |rest|
    {
      var x :| x in rest;
      order := order + [x];
      rest := rest - {x};
    }
  }

  class AnnotationProcessor {
    /** The suffix of generated class names (`ModelFiller.SUFFIX`). */
    const suffix: string
    /** Diagnostics handed to the messager so far. */
    var messages: seq<Diagnostic>
    /** Source files created through the filer so far. */
    var files: seq<SourceFile>

    constructor (suffix: string)
      ensures this.suffix == suffix && messages == [] && files == []
    {
      this.suffix := suffix;
      messages := [];
      files := [];
    }

    /** `error`: report an error-severity message attached to an element. */
    method Error(message: string, subject: Subject)
      modifies this`messages
      ensures messages == old(messages) + [Diagnostic(message, subject)]
    {
      messages := messages + [Diagnostic(message, subject)];
    }

    /**
     * `checkColumnModifiers`: passes iff the field is neither private, final
     * nor static; otherwise reports exactly one error, for the first of those
     * it carries.
     */
    method CheckColumnModifiers(column: Element) returns (ok: bool)
      modifies this`messages
      ensures ok <==> FieldViolations(column.modifiers) == []
      ensures ok ==> messages == old(messages)
      ensures !ok ==> messages == old(messages) + [Diagnostic(FieldModifierMessage(FieldViolations(column.modifiers)[0]), AtElement(column))]
    {
      FieldViolationsInOrder(column.modifiers);
      if Private in column.modifiers {
        Error(PrivateFieldMessage, AtElement(column));
        return false;
      }
      if Final in column.modifiers {
        Error(FinalFieldMessage, AtElement(column));
        return false;
      }
      if Static in column.modifiers {
        Error(StaticFieldMessage, AtElement(column));
        return false;
      }
      return true;
    }

    /**
     * `checkTableModifiers`: a private class is refused before its kind is
     * looked at; anything but a class is refused next. Exactly one error per
     * refusal, none on success.
     */
    method CheckTableModifiers(table: TypeElement) returns (ok: bool)
      modifies this`messages
      ensures ok <==> ClassViolations(table) == []
      ensures ok ==> messages == old(messages)
      ensures !ok ==> messages == old(messages) + [Diagnostic(ClassViolationMessage(ClassViolations(table)[0]), AtType(table))]
    {
      if Private in table.modifiers {
        Error(PrivateClassMessage, AtType(table));
        return false;
      }
      if table.kind != Class {
        Error(NotAClassMessage, AtType(table));
        return false;
      }
      return true;
    }

    /**
     * `generate`: creates the filler file for one class. Both emitters walk
     * the same, unchanged set of fields, so they see it in the same order.
     */
    method Generate(table: TypeElement, columns: set<Element>) returns (ghost file: SourceFile)
      requires NameFitsPackage(table)
      modifies this`files
      ensures file.origin == table && GeneratedFor(file, table, columns, suffix)
      ensures files == old(files) + [file]
    {
      var packageName := table.packageName;
      var className := table.qualifiedName;
      var fillerClassName := GetClassName(className, packageName) + suffix;
      var columnsOrder := Enumerate(columns);
      var loadCode := GetLoadFromCursorCode(columnsOrder);
      var fillCode := GetFillContentValuesCode(columnsOrder);
      var text := SourceText(packageName, className, fillerClassName, loadCode, fillCode);
      var created := SourceFile(packageName + "." + fillerClassName, table, text);
      files := files + [created];
      file := created;
      assert file == GeneratedFile(table, LoadFromCursorCode(columnsOrder), FillContentValuesCode(columnsOrder), suffix);
    }

    /**
     * The body of `parseColumns`'s first loop for one element: the guards in
     * order, each reporting at most one diagnostic. An accepted field is
     * added to its class's set; `stop` is set when the element has no
     * enclosing class, where the source throws.
     */
    method ParseColumn(tables: map<TypeElement, set<Element>>, element: Element)
      returns (tables': map<TypeElement, set<Element>>, stop: bool)
      modifies this`messages
      ensures stop <==> Classify(element).Aborted?
      ensures messages == old(messages) + ElementDiagnostics(element)
      ensures tables' == AddColumn(tables, element)
    {
      tables' := tables;
      stop := false;
      if !element.isVariable || element.kind != Field {
        Error(NotAFieldMessage, AtElement(element));
        return;
      }
      var columnOk := CheckColumnModifiers(element);
      if !columnOk {
        return;
      }
      if element.enclosing.EnclosedByOther? {
        Error(NotInsideClassMessage, AtElement(element));
        // `checkTableModifiers(null)` throws here.
        stop := true;
        return;
      }
      var table := element.enclosing.table;
      var tableOk := CheckTableModifiers(table);
      if !tableOk {
        return;
      }
      var columnsElements := if table in tables then tables[table] else {};
      tables' := tables[table := columnsElements + {element}];
    }

    /**
     * `parseColumns`: runs every annotated element through the guards,
     * reporting one diagnostic per refusal and grouping accepted fields by
     * enclosing class; then generates one file per class. An element outside
     * any class ends the round after its diagnostic, before any file is
     * generated.
     */
    method ParseColumns(annotated: seq<Element>) returns (outcome: Outcome)
      requires NamesFit(annotated)
      modifies this`messages, this`files
      ensures AbortIndex(annotated) < |annotated| ==> outcome == Stopped(annotated[AbortIndex(annotated)])
      ensures AbortIndex(annotated) == |annotated| ==> outcome == Completed
      ensures messages == old(messages) + AllDiagnostics(Processed(annotated))
      ensures outcome.Stopped? ==> files == old(files)
      ensures outcome.Completed? ==>
                |old(files)| <= |files| && files[..|old(files)|] == old(files) &&
                OneFilePerTable(files[|old(files)|..], Tables(annotated), suffix)
    {
      var tables;
      tables, outcome := ParseElements(annotated);
      if outcome.Completed? {
        forall table | table in tables
          ensures NameFitsPackage(table)
        {
          TablesKeys(annotated, table);
        }
        GenerateAll(tables);
      }
    }

    /**
     * The first loop of `parseColumns`: the guards over every element in
     * turn, until the end or until an element outside any class.
     */
    method ParseElements(annotated: seq<Element>) returns (tables: map<TypeElement, set<Element>>, outcome: Outcome)
      modifies this`messages
      ensures AbortIndex(annotated) < |annotated| ==> outcome == Stopped(annotated[AbortIndex(annotated)])
      ensures AbortIndex(annotated) == |annotated| ==> outcome == Completed && tables == Tables(annotated)
      ensures messages == old(messages) + AllDiagnostics(Processed(annotated))
    {
      tables := map[];
      for i := 0 to |annotated|
        invariant i <= AbortIndex(annotated)
        invariant tables == Tables(annotated[..i])
        invariant messages == old(messages) + AllDiagnostics(annotated[..i])
      {
        var stop;
        tables, stop := ParseNext(annotated, i, tables, old(messages));
        if stop {
          outcome := Stopped(annotated[i]);
          return;
        }
      }
      assert annotated[..|annotated|] == annotated;
      outcome := Completed;
    }

    /** One turn of the first loop of `parseColumns`: the guards for the `i`th element. */
    method ParseNext(annotated: seq<Element>, i: nat, tables: map<TypeElement, set<Element>>,
                     ghost start: seq<Diagnostic>)
      returns (tables': map<TypeElement, set<Element>>, stop: bool)
      requires i < |annotated| && i <= AbortIndex(annotated)
      requires tables == Tables(annotated[..i])
      requires messages == start + AllDiagnostics(annotated[..i])
      modifies this`messages
      ensures stop <==> AbortIndex(annotated) == i
      ensures stop ==> Processed(annotated) == annotated[..i + 1]
      ensures tables' == Tables(annotated[..i + 1])
      ensures messages == start + AllDiagnostics(annotated[..i + 1])
    {
      TablesStep(annotated, i);
      DiagnosticsStep(annotated, i);
      AbortIndexStep(annotated, i);
      tables', stop := ParseColumn(tables, annotated[i]);
      AppendAssociative(start, AllDiagnostics(annotated[..i]), ElementDiagnostics(annotated[i]));
    }

    /** The closing loop of `parseColumns`: `generate` once per class in the map. */
    method GenerateAll(tables: map<TypeElement, set<Element>>)
      requires forall table :: table in tables ==> NameFitsPackage(table)
      modifies this`files
      ensures |old(files)| <= |files| && files[..|old(files)|] == old(files)
      ensures OneFilePerTable(files[|old(files)|..], tables, suffix)
    {
      var keys := Enumerate(tables.Keys);
      ghost var made: seq<SourceFile> := [];
      for k := 0 to |keys|
        invariant |made| == k && forall i :: 0 <= i < k ==> made[i].origin == keys[i]
        invariant AllGeneratedFor(made, tables, suffix)
        invariant files == old(files) + made
      {
        made := GenerateNext(tables, keys, k, old(files), made);
      }
      DropPrefix(old(files), made);
      OneFilePerTableOf(made, keys, tables, suffix);
    }

    /** One turn of the closing loop of `parseColumns`: `generate` for the `k`th class. */
    method GenerateNext(tables: map<TypeElement, set<Element>>, keys: seq<TypeElement>, k: nat,
                        ghost start: seq<SourceFile>, ghost made: seq<SourceFile>)
      returns (ghost made': seq<SourceFile>)
      requires forall table :: table in tables ==> NameFitsPackage(table)
      requires k < |keys| && keys[k] in tables
      requires |made| == k && forall i :: 0 <= i < k ==> made[i].origin == keys[i]
      requires AllGeneratedFor(made, tables, suffix)
      requires files == start + made
      modifies this`files
      ensures |made'| == k + 1 && forall i :: 0 <= i < k + 1 ==> made'[i].origin == keys[i]
      ensures AllGeneratedFor(made', tables, suffix)
      ensures files == start + made'
    {
      ghost var file := Generate(keys[k], tables[keys[k]]);
      AllGeneratedForSnoc(made, file, tables, suffix);
      made' := made + [file];
    }
  }
}
