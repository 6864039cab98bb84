# ActiveAndroid annotation processor, modelled in Dafny

ActiveAndroid's compile-time annotation processor (`AnnotationProcessor`)
handles fields annotated with `@Column`. For each such field it:

- checks the element's kind, the field's modifiers, the enclosing element and
  the enclosing class's modifiers and kind, and reports one compiler error per
  refused element;
- groups the accepted fields by enclosing class;
- for every class, generates a `ModelFiller` subclass with two methods:
  - `loadFromCursor`, which reads each field from a database cursor;
  - `fillContentValues`, which writes each field into a `ContentValues`.

The text of both methods is chosen field by field through a fixed
first-match table over the field's type (`isTypeOf`, which walks the
superclass chain).

The project models this in these modules:

- `Elements`: the compiler's reflective objects as small datatypes:
  - an element with kind, modifiers, enclosing element, type and `@Column`
    data;
  - a type that is either a declared type (with its type declaration and
    superclass) or another type.
- `Naming`: `getClassName`.
- `TypeMatching`: `isTypeOf`, and the if/else-if chains as "first branch
  that matches".
- `Validation`: the guards of `parseColumns` and the two `check*` methods,
  as pure functions.
- `CodeText`: the column-name rule, and generated code viewed as the
  sequence of chunks appended to a `StringBuilder`.
- `LoadEmitter` and `FillEmitter`: the two code emitters. Each has:
  - a function stating the text;
  - a method with the source's loop and appends, proved to produce that
    text;
  - lemmas about the text's shape.
- `Processor`: the class `AnnotationProcessor`, holding two lists:
  - `messages`, the diagnostics reported so far;
  - `files`, the source files created so far.

  Its methods are `parseColumns`, `generate` and the two checks. The
  grouping map, the abort rule and the layout of the generated class are
  specified as functions, with lemmas about them.

Three behaviours of the code are worth knowing; the model follows the code:

- **Modifier errors.** Only the first forbidden field modifier is reported, in
  the order private, final, static (AnnotationProcessor.java:305-323). A second
  one on the same field goes unreported.
- **Field outside any class.** Such a field is reported (line 73), and then
  `null` is passed to `checkTableModifiers` (line 75), which throws. The model
  ends the round there (`Outcome.Stopped`), before any file is generated.
- **Arrays and enums.** The tables test `byte[]`, `Byte[]` and `Enum` fields
  (lines 193-200 and 252-257), but `isTypeOf` compares `Class.getName()` with
  the printed type (line 273), and these never coincide:
  - `"[B"` is tested, but the type prints as `"byte[]"`;
  - `"[Ljava.lang.Byte;"` is tested, but the type prints as
    `"java.lang.Byte[]"`;
  - `"java.lang.Enum"` is tested, but an enum's superclass prints as
    `java.lang.Enum<` followed by the enum's own name and `>`.

  So array fields and enum fields take the final `else`. The lemmas
  `ByteArrayFieldsReadNull`, `ByteArrayFieldsWriteNull`, `EnumFieldsReadNull`
  and `EnumFieldsWriteNull` state this as written.

## Model

| member | source | states |
|---|---|---|
| Naming.ReplaceChar | src/com/activeandroid/internal/AnnotationProcessor.java:331 | `replace('.', '$')`: the same length, every `from` becomes `to`, every other character is kept |
| Naming.GetClassName | src/com/activeandroid/internal/AnnotationProcessor.java:329-332 | The package name plus one character is cut off. Every remaining character survives, with '.' turned into '$'. The result holds no '.', and its length is the qualified length minus the package length minus one |
| Naming.NestedClassName | src/com/activeandroid/internal/AnnotationProcessor.java:329-332 | For a class `Outer.Inner` in package `p`, the name is `Outer$Inner` |
| Naming.UnnamedPackageLosesFirstCharacter | src/com/activeandroid/internal/AnnotationProcessor.java:329-332 | In the unnamed package the first letter of the class is still cut: `Note` gives `ote`, and `Note.Body` gives `ote$Body` |
| Naming.RestoreNestedName | src/com/activeandroid/internal/AnnotationProcessor.java:329-332 | Turning '$' back into '.' recovers the class name relative to its package, when that name held no '$' |
| TypeMatching.IsTypeOf | src/com/activeandroid/internal/AnnotationProcessor.java:272-289 | `isTypeOf` as written: true when the class name equals the printed type, false for a type that is not declared, otherwise the answer for the superclass. `IsTypeOfMeansNameOnChain` states what it means |
| TypeMatching.SuperChain | src/com/activeandroid/internal/AnnotationProcessor.java:279-286 | The chain `isTypeOf` walks is never empty and starts at the type itself |
| TypeMatching.IsTypeOfMeansNameOnChain | src/com/activeandroid/internal/AnnotationProcessor.java:272-289 | `isTypeOf(t, C)` holds iff some type on t's superclass chain prints exactly as C's name |
| TypeMatching.SuperChainOfAncestor | src/com/activeandroid/internal/AnnotationProcessor.java:279-286 | The chain walked from an ancestor is the tail of its descendant's chain |
| TypeMatching.AncestorMatchIsInherited | src/com/activeandroid/internal/AnnotationProcessor.java:284-287 | If an ancestor matches a class, so does every descendant |
| TypeMatching.NonDeclaredMatchesOnlyItself | src/com/activeandroid/internal/AnnotationProcessor.java:273-277 | A type that is not a declared type (primitive or array) matches exactly the class whose name equals its printed name |
| TypeMatching.ChosenIsFirstMatch | src/com/activeandroid/internal/AnnotationProcessor.java:163-202 | An if/else-if chain takes its final `else` iff no branch matches. Otherwise it takes a branch that matches, and no branch tried before it matches |
| TypeMatching.FirstMatchWins | src/com/activeandroid/internal/AnnotationProcessor.java:163-202 | The branch at the first matching position matches, and every earlier branch does not |
| TypeMatching.ChainTakesFirstMatch | src/com/activeandroid/internal/AnnotationProcessor.java:163-202 | The value of the chain is the value of the first matching branch, or the fallback when none matches |
| TypeMatching.EnumSuperclassIsUntested | src/com/activeandroid/internal/AnnotationProcessor.java:199 | For every enum name, `java.lang.Enum<name>` differs from every tested class name, the `"java.lang.Enum"` that line 199 tests included |
| TypeMatching.EnumChainIsUntested | src/com/activeandroid/internal/AnnotationProcessor.java:199-200 | For every enum whose own name is not a tested class name: no type on its superclass chain (the enum, `java.lang.Enum<name>`, `java.lang.Object`) prints as any class name either table tests, `java.lang.Enum` included |
| Validation.FieldViolations | src/com/activeandroid/internal/AnnotationProcessor.java:305-323 | The forbidden modifiers a field carries, in the order they are checked. `FieldViolationsInOrder` and `FieldModifierError` state their order and the message reported |
| Validation.ClassViolations | src/com/activeandroid/internal/AnnotationProcessor.java:291-303 | The reasons a class is refused, private before not-a-class. `ClassError` states which one is reported |
| Validation.Present | src/com/activeandroid/internal/AnnotationProcessor.java:307-320 | A modifier is listed iff it is one of those checked and the field carries it |
| Validation.FieldViolationsInOrder | src/com/activeandroid/internal/AnnotationProcessor.java:305-323 | The violations are listed private first, then final, then static |
| Validation.FieldModifierError | src/com/activeandroid/internal/AnnotationProcessor.java:305-323 | The field passes iff it is neither private, final nor static. Otherwise the one message is that of the first of these it carries |
| Validation.ClassError | src/com/activeandroid/internal/AnnotationProcessor.java:291-303 | A class passes iff it is not private and its kind is CLASS. A private class is refused as private, whatever its kind |
| Validation.Classify | src/com/activeandroid/internal/AnnotationProcessor.java:59-84 | An element is accepted iff all of these hold: it is a field element, it passes the modifier check, it sits in a type declaration, and that declaration passes the class check. It is then filed under that enclosing class. The round aborts exactly on a field that passes its modifier check but has no enclosing class |
| Validation.ElementDiagnostics | src/com/activeandroid/internal/AnnotationProcessor.java:59-76 | No diagnostic for an accepted field and at most one for any element. The message is the "not a field" message for a wrong element and the "not inside of class" message for an aborting one |
| Validation.ForbiddenModifierReportedOnce | src/com/activeandroid/internal/AnnotationProcessor.java:66-67 | A field with a forbidden modifier draws exactly the diagnostic of the first one it carries, and is not accepted |
| CodeText.ColumnName | src/com/activeandroid/internal/AnnotationProcessor.java:142-145 | The column is the annotation's `name` when it is neither null nor empty, else the field's simple name. The same function serves both emitters (lines 216-219) |
| CodeText.Append | src/com/activeandroid/internal/AnnotationProcessor.java:153 | `StringBuilder.append`: the text grows by the chunk, and the list of chunks appended so far grows by it |
| LoadEmitter.LoadTests | src/com/activeandroid/internal/AnnotationProcessor.java:163-200 | The classes each branch of the load chain tests, in source order; `LoadTable` lists the 19 branches in the order they are tried. `LoadTestsAreTested` and `EnumChainIsUntested` are stated over them |
| LoadEmitter.LoadAccessorOf | src/com/activeandroid/internal/AnnotationProcessor.java:163-202 | The branch the load chain takes for a type, `Unsupported` being the final `else`. `LoadAccessorIsFirstMatch` states it is the first branch that matches |
| LoadEmitter.LoadRead | src/com/activeandroid/internal/AnnotationProcessor.java:164-202 | The right-hand side each branch appends, with the null guard on exactly the eight nullable branches (`NullCheckOnNullableBranches`) |
| LoadEmitter.LoadValue | src/com/activeandroid/internal/AnnotationProcessor.java:163-202 | The value the chain assigns to the field. `LoadValueOfChosenBranch` states it is the read of the branch `LoadAccessorOf` picks |
| LoadEmitter.LoadAccessorIsFirstMatch | src/com/activeandroid/internal/AnnotationProcessor.java:163-202 | The load chain takes the first of its 19 branches, in source order, whose classes the type matches. It takes the final `else` iff none matches |
| LoadEmitter.LoadValueOfChosenBranch | src/com/activeandroid/internal/AnnotationProcessor.java:163-202 | The value assigned is the read of the branch chosen |
| LoadEmitter.LoadTestsAreTested | src/com/activeandroid/internal/AnnotationProcessor.java:163-200 | Every class a load branch tests is among the tested class names |
| LoadEmitter.UnmatchedTypeReadsNull | src/com/activeandroid/internal/AnnotationProcessor.java:201-202 | A type whose chain prints as no tested class name falls through to the final `else`, and the field is assigned ` null;` |
| LoadEmitter.ByteArrayFieldsReadNull | src/com/activeandroid/internal/AnnotationProcessor.java:193-196 | As written, a `byte[]` or `Byte[]` field never reaches a blob branch and is assigned null |
| LoadEmitter.EnumFieldsReadNull | src/com/activeandroid/internal/AnnotationProcessor.java:199-202 | As written, a field of any enum type (whose name is not itself a tested class name) never reaches the enum branch and is assigned null |
| LoadEmitter.AssignOpening | src/com/activeandroid/internal/AnnotationProcessor.java:150-161 | The index line, then for a declared type the probe, serialized read and `else`, then the assignment head and value. `ProbeLinesOf` and `IndexLinesOf` state its shape |
| LoadEmitter.AssignClosing | src/com/activeandroid/internal/AnnotationProcessor.java:203-205 | The closing brace, for a declared type only. `ProbeLinesOf` states it comes last |
| LoadEmitter.FieldLoadLines | src/com/activeandroid/internal/AnnotationProcessor.java:140-205 | The lines one field contributes. `IndexAssignedOnce`, `ProbeIffDeclared` and `NullCheckOnlyWhenNullable` state their shape |
| LoadEmitter.LoadFromCursorCode | src/com/activeandroid/internal/AnnotationProcessor.java:135-207 | The text returned for one iteration order: the preamble, then the lines of each field in turn. `GetLoadFromCursorCode` is proved to return it, and `IndexCount` and `ProbeCount` count its lines |
| LoadEmitter.GetLoadFromCursorCode | src/com/activeandroid/internal/AnnotationProcessor.java:135-208 | The emitter loop returns exactly the preamble followed by each field's lines, in iteration order |
| LoadEmitter.AppendColumnLoad | src/com/activeandroid/internal/AnnotationProcessor.java:140-205 | One loop turn appends exactly that field's lines |
| LoadEmitter.AppendAssignment | src/com/activeandroid/internal/AnnotationProcessor.java:153-205 | The field's lines up to the assignment, then the closing brace for a declared type |
| LoadEmitter.AppendAssignmentOpening | src/com/activeandroid/internal/AnnotationProcessor.java:150-161 | These lines are appended in order: the index line; for a declared type, the probe, the serialized read and the `else`; then the assignment with the chosen value |
| LoadEmitter.IndexAssignedOnce | src/com/activeandroid/internal/AnnotationProcessor.java:150-153 | Each field's code opens with the index assignment for its resolved column name, and no other line of it assigns the index |
| LoadEmitter.IndexLinesOf | src/com/activeandroid/internal/AnnotationProcessor.java:150-161 | `IndexAssignedOnce` for any assigned value |
| LoadEmitter.ProbeIffDeclared | src/com/activeandroid/internal/AnnotationProcessor.java:154-205 | For a declared type: exactly one probe, as the second line, the serialized read (line 156) third, the `else` fourth and the closing brace last. Otherwise: no probe, only the index line and one direct assignment |
| LoadEmitter.ProbeLinesOf | src/com/activeandroid/internal/AnnotationProcessor.java:154-205 | `ProbeIffDeclared` for any assigned value |
| LoadEmitter.NullCheckOnlyWhenNullable | src/com/activeandroid/internal/AnnotationProcessor.java:163-202 | The `cursor.isNull(i) ? null :` guard heads the value iff the chosen branch is one of these: Integer/Byte/Short, Long, Float, Double, Boolean, Character, String, Byte[]. An unmatched type reads ` null;` |
| LoadEmitter.NullCheckOnNullableBranches | src/com/activeandroid/internal/AnnotationProcessor.java:163-202 | Branch by branch: the read starts with the null guard iff the branch is a nullable one |
| LoadEmitter.NullableReadsCheckNull | src/com/activeandroid/internal/AnnotationProcessor.java:163-196 | Each wrapper, String and Byte[] read starts with the null guard |
| LoadEmitter.OtherReadsDoNotCheckNull | src/com/activeandroid/internal/AnnotationProcessor.java:171-202 | No primitive, `byte[]`, Model, Enum or fallback read starts with the null guard |
| LoadEmitter.PreambleIsNoFieldLine | src/com/activeandroid/internal/AnnotationProcessor.java:137 | The line declaring `i` is neither an index assignment nor a probe |
| LoadEmitter.IndexCount | src/com/activeandroid/internal/AnnotationProcessor.java:139-206 | Over all fields, there are exactly as many index assignments as fields |
| LoadEmitter.ProbeCount | src/com/activeandroid/internal/AnnotationProcessor.java:139-206 | Over all fields, there are exactly as many probes as fields of a declared type |
| LoadEmitter.LoadCodeCounts | src/com/activeandroid/internal/AnnotationProcessor.java:135-207 | Over every line `getLoadFromCursorCode` returns, the preamble of line 137 included: exactly one index assignment per field, and exactly as many probes as fields of a declared type |
| FillEmitter.FillTests | src/com/activeandroid/internal/AnnotationProcessor.java:234-257 | The classes each branch of the fill chain tests, wrapper before primitive or array form; `FillTable` lists the 12 branches in the order they are tried. `FillTestsAreTested` is stated over them |
| FillEmitter.FillAccessorOf | src/com/activeandroid/internal/AnnotationProcessor.java:234-259 | The branch the fill chain takes for a type, `NoPut` being the final `else`. `FillAccessorIsFirstMatch` states it is the first branch that matches |
| FillEmitter.FillCall | src/com/activeandroid/internal/AnnotationProcessor.java:235-259 | The call each branch writes after `contentValues.`. `PutWritesFieldUnderColumnName` states that every call is keyed by the column name |
| FillEmitter.FillPut | src/com/activeandroid/internal/AnnotationProcessor.java:234-259 | The call the chain writes for the field. `FillPutOfChosenBranch` states it is the call of the branch `FillAccessorOf` picks |
| FillEmitter.FillAccessorIsFirstMatch | src/com/activeandroid/internal/AnnotationProcessor.java:234-259 | The fill chain takes the first of its 12 branches, in source order, whose classes the type matches. It takes the final `else` iff none matches |
| FillEmitter.FillPutOfChosenBranch | src/com/activeandroid/internal/AnnotationProcessor.java:234-259 | The call written is the call of the branch chosen |
| FillEmitter.FillTestsAreTested | src/com/activeandroid/internal/AnnotationProcessor.java:234-257 | Every class a fill branch tests is among the tested class names |
| FillEmitter.UnmatchedTypeWritesNull | src/com/activeandroid/internal/AnnotationProcessor.java:258-259 | A type whose chain prints as no tested class name writes `putNull` under the column name |
| FillEmitter.ByteArrayFieldsWriteNull | src/com/activeandroid/internal/AnnotationProcessor.java:252-253 | As written, a `byte[]` or `Byte[]` field never reaches the blob branch and writes `putNull` |
| FillEmitter.EnumFieldsWriteNull | src/com/activeandroid/internal/AnnotationProcessor.java:256-259 | As written, a field of any enum type (whose name is not itself a tested class name) never reaches the enum branch and writes `putNull` |
| FillEmitter.PutWritesFieldUnderColumnName | src/com/activeandroid/internal/AnnotationProcessor.java:234-259 | Every `put` is keyed by the resolved column name and passes `model.<field>`, converted as follows: `.getId()` for a Model, `.name()` for an Enum, `.toString()` for Character/char/String, nothing otherwise. An unmatched type writes `putNull(name)` |
| FillEmitter.PutOpening | src/com/activeandroid/internal/AnnotationProcessor.java:226-233 | For a declared type the probe, serialized write and `!= null` test, then the write. `ProbeLinesOf` states its shape |
| FillEmitter.PutClosing | src/com/activeandroid/internal/AnnotationProcessor.java:260-266 | For a declared type the `else`/`putNull` pair when there is no default, then the brace. `ElseLinesOf` states when the pair is there |
| FillEmitter.FieldFillLines | src/com/activeandroid/internal/AnnotationProcessor.java:214-266 | The lines one field contributes. `ProbeAndNullTestIffDeclared` and `PutNullBranchIffNoDefault` state their shape |
| FillEmitter.FillContentValuesCode | src/com/activeandroid/internal/AnnotationProcessor.java:210-270 | The text returned for one iteration order: the lines of each field in turn. `GetFillContentValuesCode` is proved to return it, and `FillCodeCounts` counts its lines |
| FillEmitter.GetFillContentValuesCode | src/com/activeandroid/internal/AnnotationProcessor.java:210-270 | The emitter loop returns exactly each field's lines, in iteration order |
| FillEmitter.AppendColumnFill | src/com/activeandroid/internal/AnnotationProcessor.java:214-266 | One loop turn appends exactly that field's lines |
| FillEmitter.AppendPutOpening | src/com/activeandroid/internal/AnnotationProcessor.java:226-259 | These lines are appended in order: for a declared type, the probe, the serialized write and the `!= null` test; then the write |
| FillEmitter.AppendPutClosing | src/com/activeandroid/internal/AnnotationProcessor.java:260-266 | For a declared type: the `else putNull` branch when the default value is null or empty, then the closing brace. Nothing for other types |
| FillEmitter.ProbeAndNullTestIffDeclared | src/com/activeandroid/internal/AnnotationProcessor.java:226-266 | For a declared type: exactly one probe, first, the serialized write (line 228) second, the `!= null` test third, the write fourth and the closing brace last. Otherwise: one unconditional line |
| FillEmitter.ProbeLinesOf | src/com/activeandroid/internal/AnnotationProcessor.java:226-266 | `ProbeAndNullTestIffDeclared` for any write |
| FillEmitter.PutNullBranchIffNoDefault | src/com/activeandroid/internal/AnnotationProcessor.java:260-266 | The `} else {` line appears iff the type is declared and the default is null or empty. It is then the only such line, fifth, followed by `putNull` under the column name |
| FillEmitter.ElseLinesOf | src/com/activeandroid/internal/AnnotationProcessor.java:260-266 | `PutNullBranchIffNoDefault` for any write |
| FillEmitter.FillCodeCounts | src/com/activeandroid/internal/AnnotationProcessor.java:213-268 | Over all fields: one probe per field of a declared type, and one `putNull` branch per such field without a default |
| Processor.AddColumn | src/com/activeandroid/internal/AnnotationProcessor.java:78-84 | One turn of the grouping: an accepted field joins the set of its class, created on first use; any other element leaves the map alone. `TablesMembership` states the result |
| Processor.Tables | src/com/activeandroid/internal/AnnotationProcessor.java:59-86 | The map the first loop builds over the elements in order. `TablesMembership`, `TablesKeys` and `FieldInOneGroup` state its contents |
| Processor.TablesMembership | src/com/activeandroid/internal/AnnotationProcessor.java:78-84 | A field is in the set of a class iff it is among the elements and is accepted with that class as its enclosing class |
| Processor.TablesGroupsNonEmpty | src/com/activeandroid/internal/AnnotationProcessor.java:78-84 | A set is created only when a field is added to it, so no class has an empty set |
| Processor.TablesKeys | src/com/activeandroid/internal/AnnotationProcessor.java:78-84 | A class is a key of the map iff at least one of its fields is accepted |
| Processor.FieldInOneGroup | src/com/activeandroid/internal/AnnotationProcessor.java:69-84 | An accepted field is in exactly one set: that of its own enclosing class |
| Processor.NoGroupForRejectedClass | src/com/activeandroid/internal/AnnotationProcessor.java:75-76 | A class that fails the class check never gets a set |
| Processor.GroupedClassesEncloseElements | src/com/activeandroid/internal/AnnotationProcessor.java:69-84 | Every key of the map encloses one of the annotated elements |
| Processor.AbortIndex | src/com/activeandroid/internal/AnnotationProcessor.java:69-75 | The position of the first field that reaches `checkTableModifiers(null)`, or the length; at most the length. `AbortIndexIsFirstAbort` states it is the first |
| Processor.Processed | src/com/activeandroid/internal/AnnotationProcessor.java:59-86 | The elements the first loop gets through: all of them, or up to and including the aborting one. `AbortIndexStep` states it |
| Processor.AllDiagnostics | src/com/activeandroid/internal/AnnotationProcessor.java:59-76 | The diagnostics of the elements, in order. `OneDiagnosticPerRefusal` counts them |
| Processor.AbortIndexIsFirstAbort | src/com/activeandroid/internal/AnnotationProcessor.java:69-75 | The round ends at the first element that reaches `checkTableModifiers(null)`, and at none before it |
| Processor.AbortIndexStep | src/com/activeandroid/internal/AnnotationProcessor.java:69-75 | Scanning in order, the element reached aborts iff it is where the round ends. The elements processed are then exactly those up to it |
| Processor.OneDiagnosticPerRefusal | src/com/activeandroid/internal/AnnotationProcessor.java:59-86 | The elements draw as many diagnostics as there are elements not accepted |
| Processor.SourceParts | src/com/activeandroid/internal/AnnotationProcessor.java:101-127 | The pieces `generate` writes, in order, around the two emitted method bodies. `SourceLayout` states their positions |
| Processor.SourceText | src/com/activeandroid/internal/AnnotationProcessor.java:101-127 | The whole file text, the pieces joined. `SourceLayout` states where the super calls and method bodies sit |
| Processor.SourceLayout | src/com/activeandroid/internal/AnnotationProcessor.java:101-127 | The generated class opens with the banner and the package line. These appear in this order, without overlapping: the delegation to the superclass's filler in `loadFromCursor`, the load code, the delegation in `fillContentValues`, the fill code |
| Processor.SourceDeclarations | src/com/activeandroid/internal/AnnotationProcessor.java:110-124 | The filler class declaration `public class <filler> extends ModelFiller` comes before the load method's delegation to the superclass's filler. In each method the cast of the generic model to the model class sits immediately before the emitted code, and the load method's cast and code end before the fill method's cast |
| Processor.FillerClassName | src/com/activeandroid/internal/AnnotationProcessor.java:96 | `getClassName` of the model class plus the suffix. `NestedClassName` states the name it yields |
| Processor.FillerFileName | src/com/activeandroid/internal/AnnotationProcessor.java:99 | The name the filer is asked for: package, dot, filler class name. `FillerFileNameOfNested` states it for a nested class |
| Processor.FillerFileNameOfNested | src/com/activeandroid/internal/AnnotationProcessor.java:94-99 | The file for `p.Outer.Inner` is named `p.Outer$Inner` plus the suffix |
| Processor.GeneratedFileDeclaresFiller | src/com/activeandroid/internal/AnnotationProcessor.java:96-110 | The file asked of the filer is the package, a dot and the filler class name, and the text of that file declares exactly that filler class |
| Processor.OneFilePerTableOf | src/com/activeandroid/internal/AnnotationProcessor.java:88-90 | Files made one per map key, for keys listed once each, are exactly one generated file per class |
| Processor.Enumerate | src/com/activeandroid/internal/AnnotationProcessor.java:88 | An iteration order of a set lists every member exactly once |
| Processor.AnnotationProcessor.Error | src/com/activeandroid/internal/AnnotationProcessor.java:325-327 | Reports one error-severity diagnostic, with the message and the element it is attached to, after those already reported |
| Processor.AnnotationProcessor.CheckColumnModifiers | src/com/activeandroid/internal/AnnotationProcessor.java:305-323 | Returns true iff the field is neither private, final nor static, and then reports nothing. Otherwise it reports exactly one error: that of the first forbidden modifier, in the order private, final, static |
| Processor.AnnotationProcessor.CheckTableModifiers | src/com/activeandroid/internal/AnnotationProcessor.java:291-303 | Returns true iff the class is not private and is a CLASS, and then reports nothing. Otherwise it reports exactly one error, attached to the class: private first, then kind |
| Processor.AnnotationProcessor.Generate | src/com/activeandroid/internal/AnnotationProcessor.java:93-133 | Creates exactly one file, originating from the class. Its name is the filler name, and its text is the class layout around the load and fill code, both emitted over the same iteration order of the fields |
| Processor.AnnotationProcessor.ParseColumn | src/com/activeandroid/internal/AnnotationProcessor.java:59-86 | One element through the guards: reports exactly its diagnostics, adds an accepted field to its class's set, and signals the abort exactly when there is no enclosing class |
| Processor.AnnotationProcessor.ParseElements | src/com/activeandroid/internal/AnnotationProcessor.java:59-86 | The first loop stops at the first aborting element, or builds the full grouping map. Either way it reports the diagnostics of exactly the elements it processed |
| Processor.AnnotationProcessor.ParseNext | src/com/activeandroid/internal/AnnotationProcessor.java:59-86 | One loop turn extends the map and the diagnostics by the next element, and stops exactly at the abort position |
| Processor.AnnotationProcessor.ParseColumns | src/com/activeandroid/internal/AnnotationProcessor.java:56-91 | The outcome is `Stopped` at the first aborting element, else `Completed`. The diagnostics are those of the processed elements. An aborted round creates no file. A completed one appends exactly one generated file per class with accepted fields |
| Processor.AnnotationProcessor.GenerateAll | src/com/activeandroid/internal/AnnotationProcessor.java:88-90 | `generate` runs once per key, in any order: earlier files are kept, and exactly one file is added per class of the map |
| Processor.AnnotationProcessor.GenerateNext | src/com/activeandroid/internal/AnnotationProcessor.java:88-90 | One turn of that loop adds the file for the next key, which was generated for that class |

## Left out

- Creating and writing the file goes through the Filer, `JavaFileObject` and `Writer` (lines 98-100 and 128-129). The `IOException` handler (lines 130-132) is left out too. The model records the file name, its originating class and the text as a value appended to `files`. The model assumes `createSourceFile` succeeds for every class. Two classes can give the same filler name, for example a top-level `p.A$B` and a nested `p.A.B` both give `A$B`. The Filer then refuses the second name, and lines 130-132 report an error and create no file, while the model still appends two files.
- The Messager (lines 325-327) is modelled as the list `messages` of diagnostics, each with a message and the element or class it is attached to.
- `process`, `getSupportedAnnotationTypes` and `getSupportedSourceVersion` (lines 35-54) are processor boilerplate, so the model starts at `parseColumns`. The guard `annotations.size() > 0` is the caller's choice to run a round at all.
- `ModelFiller.SUFFIX` and `getPackageOf` are not part of this model. The suffix is a constructor parameter, and the package name is a field of the class element.
- HashMap and HashSet iteration order (lines 58, 80, 88, 139, 213) is not modelled. `Enumerate` yields an arbitrary order listing each member once. The properties hold for every such order, and none states an output order.
- Runtime behaviour of the generated code (`Cursor`, `ContentValues`, `ModelHelper`, `superModelFiller`) is left out. That code is not part of this model, so no load/fill round trip is claimed.
- The compiler's reflective objects (`TypeMirror`, `DeclaredType`, `TypeElement`, `getAnnotation`) are replaced by datatypes. `Class.getName()` and `TypeMirror.toString()` are kept as separate, opaque strings. A superclass chain is finite by construction, because a type is a finite datatype value.
- Processor.AnnotationProcessor.ParseColumns: the `NullPointerException` thrown by `checkTableModifiers(null)` (lines 69-75) is modelled as the outcome `Stopped(element)`. What the compiler does with the exception is left out.
- Processor.AnnotationProcessor.ParseColumns: requires that every class an accepted field is filed under has a qualified name at least as long as its package name plus the dot (`NamesFit`). A shorter name makes `substring` in `getClassName` (line 331) throw, and that exception is left out. At equal length the class name is empty and nothing throws.
