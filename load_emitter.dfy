/**
 * `getLoadFromCursorCode`: the body of the generated `loadFromCursor`. For
 * every column field it looks the column index up by name, and assigns the
 * field from the cursor through the accessor the type table picks; fields of
 * a declared type first go through the serialization probe.
 */
module LoadEmitter {
  import opened Elements
  import opened TypeMatching
  import opened CodeText

  const Preamble := "    int i = -1; // column index \n"
  const NullCheck := "cursor.isNull(i) ? null : "
  const IndexPrefix := "    i = columnsOrdered.indexOf(\""

  /** The branches of the load table, in the order they are tried. */
  datatype LoadAccessor =
    | BoxedInt | BoxedLong | BoxedFloat | BoxedDouble
    | PrimInt | PrimByte | PrimShort | PrimLong | PrimFloat | PrimDouble
    | BoxedBoolean | PrimBoolean | PrimChar | BoxedCharacter | StringValue
    | ByteArray | BoxedByteArray | ModelReference | EnumValue
    | Unsupported

  /** The classes each branch tests. */
  function LoadTests(a: LoadAccessor): seq<string>
  {
    match a
    case BoxedInt => [IntegerClass, ByteClass, ShortClass]
    case BoxedLong => [LongClass]
    case BoxedFloat => [FloatClass]
    case BoxedDouble => [DoubleClass]
    case PrimInt => [IntClass]
    case PrimByte => [PrimByteClass]
    case PrimShort => [PrimShortClass]
    case PrimLong => [PrimLongClass]
    case PrimFloat => [PrimFloatClass]
    case PrimDouble => [PrimDoubleClass]
    case BoxedBoolean => [BooleanClass]
    case PrimBoolean => [PrimBooleanClass]
    case PrimChar => [CharClass]
    case BoxedCharacter => [CharacterClass]
    case StringValue => [StringClass]
    case ByteArray => [ByteArrayClass]
    case BoxedByteArray => [BoxedByteArrayClass]
    case ModelReference => [ModelClass]
    case EnumValue => [EnumClass]
    case Unsupported => []
  }

  /** The branches of the if/else-if chain, in the order they are tried. */
  const LoadTable: seq<LoadAccessor> :=
    [BoxedInt, BoxedLong, BoxedFloat, BoxedDouble,
     PrimInt, PrimByte, PrimShort, PrimLong, PrimFloat, PrimDouble,
     BoxedBoolean, PrimBoolean, PrimChar, BoxedCharacter, StringValue,
     ByteArray, BoxedByteArray, ModelReference, EnumValue]

  /** The branch the load emitter's if/else-if chain takes; `Unsupported` is its final `else`. */
  function LoadAccessorOf(t: TypeMirror): LoadAccessor
  {
    Chosen(t, LoadTable, LoadTests, Unsupported)
  }

  /** `ChosenIsFirstMatch` for this chain. */
  lemma LoadAccessorIsFirstMatch(t: TypeMirror)
    ensures LoadAccessorOf(t) == Unsupported <==> forall a :: a in LoadTable ==> !MatchesAny(t, LoadTests(a))
    ensures LoadAccessorOf(t) != Unsupported ==>
              MatchesAny(t, LoadTests(LoadAccessorOf(t))) &&
              exists k :: 0 <= k < |LoadTable| && LoadTable[k] == LoadAccessorOf(t) &&
                          forall j :: 0 <= j < k ==> !MatchesAny(t, LoadTests(LoadTable[j]))
  {
    ChosenIsFirstMatch(t, LoadTable, LoadTests, Unsupported);
  }

  /** The branches for wrapper classes, String and Byte[]: the value may be SQL NULL. */
  predicate ReadsNullable(a: LoadAccessor)
  {
    a in {BoxedInt, BoxedLong, BoxedFloat, BoxedDouble, BoxedBoolean, BoxedCharacter, StringValue, BoxedByteArray}
  }

  /** The right-hand side a branch assigns to a field of type `t`. */
  function LoadRead(a: LoadAccessor, t: TypeMirror): string
  {
    match a
    case BoxedInt => NullCheck + "cursor.getInt(i);\n"
    case BoxedLong => NullCheck + "cursor.getLong(i);\n"
    case BoxedFloat => NullCheck + "cursor.getFloat(i);\n"
    case BoxedDouble => NullCheck + "cursor.getDouble(i);\n"
    case PrimInt => "cursor.getInt(i);\n"
    case PrimByte => "cursor.getInt(i);\n"
    case PrimShort => "cursor.getInt(i);\n"
    case PrimLong => "cursor.getLong(i);\n"
    case PrimFloat => "cursor.getFloat(i);\n"
    case PrimDouble => "cursor.getDouble(i);\n"
    case BoxedBoolean => NullCheck + "cursor.getInt(i) != 0;\n"
    case PrimBoolean => "cursor.getInt(i) != 0;\n"
    case PrimChar => "cursor.getString(i);\n"
    case BoxedCharacter => NullCheck + "cursor.getString(i);\n"
    case StringValue => NullCheck + "cursor.getString(i);\n"
    case ByteArray => "cursor.getBlob(i);\n"
    case BoxedByteArray => NullCheck + "cursor.getBlob(i);\n"
    case ModelReference => "(" + t.printed + ") ModelHelper.getModel(cursor, " + ClassLiteral(t) + ", i);\n"
    case EnumValue => "(" + t.printed + ") ModelHelper.getEnum(cursor, " + ClassLiteral(t) + ", i);\n"
    case Unsupported => " null;\n"
  }

  /** `LoadRead` for a fixed field type, as a function value. */
  function Reader(t: TypeMirror): LoadAccessor -> string
  {
    a => LoadRead(a, t)
  }

  /** The right-hand side the load emitter's if/else-if chain assigns to the field. */
  function LoadValue(column: Element): string
  {
    var t := column.asType;
    Chain(t, LoadTable, LoadTests, Reader(t), LoadRead(Unsupported, t))
  }

  /** The value assigned is the one of the branch `LoadAccessorOf` picks. */
  lemma LoadValueOfChosenBranch(column: Element)
    ensures LoadValue(column) == LoadRead(LoadAccessorOf(column.asType), column.asType)
  {
    var t := column.asType;
    ChainTakesFirstMatch(t, LoadTable, LoadTests, Reader(t), LoadRead(Unsupported, t));
  }

  /** Every class a branch tests is one of the tested classes. */
  lemma LoadTestsAreTested(a: LoadAccessor)
    ensures forall name :: name in LoadTests(a) ==> name in TestedClasses
  {
  }

  /**
   * A type none of whose superclass chain prints as a class name the chain
   * tests falls through to the final `else`: the field is assigned
   * null.
   */
  lemma UnmatchedTypeReadsNull(column: Element)
    requires forall k :: 0 <= k < |SuperChain(column.asType)| ==> SuperChain(column.asType)[k].printed !in TestedClasses
    ensures LoadAccessorOf(column.asType) == Unsupported
    ensures LoadValue(column) == " null;\n"
  {
    var t := column.asType;
    forall a | a in LoadTable
      ensures !MatchesAny(t, LoadTests(a))
    {
      LoadTestsAreTested(a);
      forall name | name in LoadTests(a)
        ensures !IsTypeOf(t, name)
      {
        IsTypeOfMeansNameOnChain(t, name);
      }
    }
    LoadAccessorIsFirstMatch(t);
    LoadValueOfChosenBranch(column);
  }

  /**
   * `byte[]` and `Byte[]` print as "byte[]" and "java.lang.Byte[]", while the
   * class names tested for them are "[B" and "[Ljava.lang.Byte;": as written,
   * neither blob branch is ever taken for an array field, which is assigned
   * null.
   */
  lemma ByteArrayFieldsReadNull(column: Element)
    requires column.asType == OtherType("byte[]") || column.asType == OtherType("java.lang.Byte[]")
    ensures LoadAccessorOf(column.asType) == Unsupported
    ensures LoadValue(column) == " null;\n"
  {
    assert SuperChain(column.asType) == [column.asType];
    assert "byte[]" !in TestedClasses;
    assert "java.lang.Byte[]" !in TestedClasses;
    UnmatchedTypeReadsNull(column);
  }

  /**
   * The superclass of an enum prints with its type argument, never as the
   * tested "java.lang.Enum": as written, an enum field falls through every
   * branch.
   */
  lemma EnumFieldsReadNull(column: Element, name: string)
    requires name !in TestedClasses && column.asType == EnumType(name)
    ensures LoadAccessorOf(column.asType) == Unsupported
    ensures LoadValue(column) == " null;\n"
  {
    EnumChainIsUntested(name);
    UnmatchedTypeReadsNull(column);
  }


  /** `i = columnsOrdered.indexOf("<name>");` */
  function IndexLine(name: string): string
  {
    IndexPrefix + name + "\"); \n"
  }

  /** `model.<field> = `: the head of the field's assignment. */
  function Target(column: Element): string
  {
    FieldAccess(column) + " = "
  }

  /** The read through the serialization helper, for a declared type. */
  function SerializedReadLine(column: Element): string
  {
    var t := column.asType;
    "      " + Target(column) + "(" + t.printed + ") ModelHelper.getSerializable(cursor, " + ClassLiteral(t) + ", i);\n"
  }

  /** The lines emitted for one column field. */
  function FieldLoadLines(column: Element): seq<string>
  {
    LinesAssigning(column, LoadValue(column))
  }

  /** The lines for one column field, with `value` as the right-hand side of its assignment. */
  function LinesAssigning(column: Element, value: string): seq<string>
  {
    AssignOpening(column, value) + AssignClosing(column)
  }

  /**
   * Up to the assignment itself: the index line, then for a declared type
   * the serialization probe, its read and the `else` that guards the
   * assignment.
   */
  function AssignOpening(column: Element, value: string): seq<string>
  {
    var t := column.asType;
    [IndexLine(ColumnName(column))]
    + if IsDeclared(t) then
        [ProbeLine(t), SerializedReadLine(column), ElseLine, "      " + Target(column) + value]
      else
        ["    " + Target(column) + value]
  }

  /** After the assignment: the closing brace, for a declared type. */
  function AssignClosing(column: Element): seq<string>
  {
    if IsDeclared(column.asType) then [CloseLine] else []
  }

  /** The lines emitted for the columns, in iteration order. */
  function FieldsLoadLines(columns: seq<Element>): seq<string>
  {
    if columns == [] then []
    else FieldsLoadLines(columns[..|columns| - 1]) + FieldLoadLines(columns[|columns| - 1])
  }

  lemma FieldsLoadLinesSnoc(columns: seq<Element>, k: nat)
    requires k < |columns|
    ensures FieldsLoadLines(columns[..k + 1]) == FieldsLoadLines(columns[..k]) + FieldLoadLines(columns[k])
  {
    assert columns[..k + 1][..k] == columns[..k];
  }

  /** The text `getLoadFromCursorCode` returns for the columns in this iteration order. */
  function LoadFromCursorCode(columns: seq<Element>): string
  {
    Join([Preamble] + FieldsLoadLines(columns))
  }

  /**
   * The emitter loop: one pass over the columns in iteration order, appending
   * each field's code to the builder.
   */
  method GetLoadFromCursorCode(columns: seq<Element>) returns (code: string)
    ensures code == LoadFromCursorCode(columns)
  {
    var builder := Preamble;
    ghost var emitted := [Preamble];
    JoinSnoc([], Preamble);
    for k := 0 to |columns|
      invariant emitted == [Preamble] + FieldsLoadLines(columns[..k])
      invariant builder == Join(emitted)
    {
      builder, emitted := AppendColumnLoad(builder, emitted, columns[k]);
      FieldsLoadLinesSnoc(columns, k);
      AppendAssociative([Preamble], FieldsLoadLines(columns[..k]), FieldLoadLines(columns[k]));
    }
    assert columns[..|columns|] == columns;
    code := builder;
  }

  /** The body of the emitter loop for one column field. */
  method AppendColumnLoad(builder: string, ghost emitted: seq<string>, column: Element)
    returns (builder': string, ghost emitted': seq<string>)
    requires builder == Join(emitted)
    ensures emitted' == emitted + FieldLoadLines(column)
    ensures builder' == Join(emitted')
  {
    var value := LoadValue(column);
    builder', emitted' := AppendAssignment(builder, emitted, column, value);
  }

  /** Appends the lines of one column field whose assignment takes `value`. */
  method AppendAssignment(builder: string, ghost emitted: seq<string>, column: Element, value: string)
    returns (builder': string, ghost emitted': seq<string>)
    requires builder == Join(emitted)
    ensures emitted' == emitted + LinesAssigning(column, value)
    ensures builder' == Join(emitted')
  {
    builder', emitted' := AppendAssignmentOpening(builder, emitted, column, value);
    if column.asType.DeclaredType? {
      builder', emitted' := Append(builder', emitted', CloseLine);
    }
    AppendAssociative(emitted, AssignOpening(column, value), AssignClosing(column));
  }

  /** The index line, the serialization probe of a declared type, then the assignment. */
  method AppendAssignmentOpening(builder: string, ghost emitted: seq<string>, column: Element, value: string)
    returns (builder': string, ghost emitted': seq<string>)
    requires builder == Join(emitted)
    ensures emitted' == emitted + AssignOpening(column, value)
    ensures builder' == Join(emitted')
  {
    var fieldName := ColumnName(column);
    var typeMirror := column.asType;
    var notPrimitiveType := typeMirror.DeclaredType?;
    builder', emitted' := Append(builder, emitted, IndexLine(fieldName));
    var indent: string;
    if notPrimitiveType {
      builder', emitted' := Append(builder', emitted', ProbeLine(typeMirror));
      builder', emitted' := Append(builder', emitted', SerializedReadLine(column));
      builder', emitted' := Append(builder', emitted', ElseLine);
      indent := "      ";
    } else {
      indent := "    ";
    }
    builder', emitted' := Append(builder', emitted', indent + Target(column) + value);
  }

  /**
   * Every field's code assigns the column index exactly once, from the
   * resolved column name, before anything else.
   */
  lemma IndexAssignedOnce(column: Element)
    ensures FieldLoadLines(column)[0] == IndexLine(ColumnName(column))
    ensures OnlyLineStartingWith(FieldLoadLines(column), IndexPrefix, 0)
  {
    IndexLinesOf(column, LoadValue(column));
  }

  /** `IndexAssignedOnce`, whatever value the assignment takes. */
  lemma IndexLinesOf(column: Element, value: string)
    ensures LinesAssigning(column, value)[0] == IndexLine(ColumnName(column))
    ensures OnlyLineStartingWith(LinesAssigning(column, value), IndexPrefix, 0)
  {
    var lines := LinesAssigning(column, value);
    forall k | 0 < k < |lines|
      ensures !(IndexPrefix <= lines[k])
    {
      if IsDeclared(column.asType) {
        if k == 1 {
          DiffersAt(IndexPrefix, lines[k], 5);
        } else {
          DiffersAt(IndexPrefix, lines[k], 4);
        }
      } else {
        DiffersAt(IndexPrefix, lines[k], 4);
      }
    }
  }

  /**
   * The serialization probe, its `else` and the closing brace are emitted
   * exactly when the field's type is a declared type; a primitive or array
   * field gets the index line and a single direct assignment.
   */
  lemma ProbeIffDeclared(column: Element)
    ensures IsDeclared(column.asType) ==>
              OnlyLineStartingWith(FieldLoadLines(column), ProbePrefix, 1) &&
              FieldLoadLines(column)[1] == ProbeLine(column.asType) &&
              FieldLoadLines(column)[2] == SerializedReadLine(column) &&
              FieldLoadLines(column)[3] == ElseLine &&
              FieldLoadLines(column)[|FieldLoadLines(column)| - 1] == CloseLine
    ensures !IsDeclared(column.asType) ==>
              NoLineStartsWith(FieldLoadLines(column), ProbePrefix) &&
              FieldLoadLines(column) == [IndexLine(ColumnName(column)), "    " + Target(column) + LoadValue(column)]
  {
    ProbeLinesOf(column, LoadValue(column));
  }

  /** `ProbeIffDeclared`, whatever value the assignment takes. */
  lemma ProbeLinesOf(column: Element, value: string)
    ensures IsDeclared(column.asType) ==>
              OnlyLineStartingWith(LinesAssigning(column, value), ProbePrefix, 1) &&
              LinesAssigning(column, value)[1] == ProbeLine(column.asType) &&
              LinesAssigning(column, value)[2] == SerializedReadLine(column) &&
              LinesAssigning(column, value)[3] == ElseLine &&
              LinesAssigning(column, value)[|LinesAssigning(column, value)| - 1] == CloseLine
    ensures !IsDeclared(column.asType) ==>
              NoLineStartsWith(LinesAssigning(column, value), ProbePrefix) &&
              LinesAssigning(column, value) == [IndexLine(ColumnName(column)), "    " + Target(column) + value]
  {
    var lines := LinesAssigning(column, value);
    forall k | 0 <= k < |lines| && (IsDeclared(column.asType) ==> k != 1)
      ensures !(ProbePrefix <= lines[k])
    {
      if k == 0 {
        DiffersAt(ProbePrefix, lines[k], 5);
      } else {
        DiffersAt(ProbePrefix, lines[k], 4);
      }
    }
  }

  /**
   * The `cursor.isNull(i) ? null :` guard heads the assigned value exactly on
   * the nullable branches: the wrapper classes, String and Byte[]; never on
   * a primitive, byte[], Model or Enum branch.
   */
  lemma NullCheckOnlyWhenNullable(column: Element)
    ensures NullCheck <= LoadValue(column) <==> ReadsNullable(LoadAccessorOf(column.asType))
    ensures LoadAccessorOf(column.asType) == Unsupported ==> LoadValue(column) == " null;\n"
  {
    LoadValueOfChosenBranch(column);
    NullCheckOnNullableBranches(LoadAccessorOf(column.asType), column.asType);
  }

  /** `NullCheckOnlyWhenNullable`, branch by branch. */
  lemma NullCheckOnNullableBranches(a: LoadAccessor, t: TypeMirror)
    ensures NullCheck <= LoadRead(a, t) <==> ReadsNullable(a)
  {
    if ReadsNullable(a) {
      NullableReadsCheckNull(a, t);
    } else {
      OtherReadsDoNotCheckNull(a, t);
    }
  }

  lemma NullableReadsCheckNull(a: LoadAccessor, t: TypeMirror)
    requires ReadsNullable(a)
    ensures NullCheck <= LoadRead(a, t)
  {
    HeadOfConcat(NullCheck, LoadRead(a, t)[|NullCheck|..]);
  }

  lemma OtherReadsDoNotCheckNull(a: LoadAccessor, t: TypeMirror)
    requires !ReadsNullable(a)
    ensures !(NullCheck <= LoadRead(a, t))
  {
    if a in {ModelReference, EnumValue, Unsupported} {
      DiffersAt(NullCheck, LoadRead(a, t), 0);
    } else {
      DiffersAt(NullCheck, LoadRead(a, t), 7);
    }
  }

  /** The line opening the method body is neither an index assignment nor a probe. */
  lemma PreambleIsNoFieldLine()
    ensures !(IndexPrefix <= Preamble) && !(ProbePrefix <= Preamble)
  {
    DiffersAt(IndexPrefix, Preamble, 5);
    DiffersAt(ProbePrefix, Preamble, 5);
  }

  /** Over the fields' code: one index assignment per column. */
  lemma {:induction false} IndexCount(columns: seq<Element>)
    ensures CountPrefixed(FieldsLoadLines(columns), IndexPrefix) == |columns|
  {
    if columns != [] {
      var init := columns[..|columns| - 1];
      var last := columns[|columns| - 1];
      IndexCount(init);
      CountPrefixedAppend(FieldsLoadLines(init), FieldLoadLines(last), IndexPrefix);
      IndexAssignedOnce(last);
      CountOnly(FieldLoadLines(last), IndexPrefix, 0);
    }
  }

  /** Over the fields' code: one serialization probe per column of a declared type. */
  lemma {:induction false} ProbeCount(columns: seq<Element>)
    ensures CountPrefixed(FieldsLoadLines(columns), ProbePrefix) == CountDeclared(columns)
  {
    if columns != [] {
      var init := columns[..|columns| - 1];
      var last := columns[|columns| - 1];
      ProbeCount(init);
      CountPrefixedAppend(FieldsLoadLines(init), FieldLoadLines(last), ProbePrefix);
      ProbeIffDeclared(last);
      if IsDeclared(last.asType) {
        CountOnly(FieldLoadLines(last), ProbePrefix, 1);
      } else {
        CountNone(FieldLoadLines(last), ProbePrefix);
      }
    }
  }

  /**
   * Over every line `getLoadFromCursorCode` returns, the preamble included:
   * one index assignment per column, and one probe per column of a declared type.
   */
  lemma LoadCodeCounts(columns: seq<Element>)
    ensures CountPrefixed([Preamble] + FieldsLoadLines(columns), IndexPrefix) == |columns|
    ensures CountPrefixed([Preamble] + FieldsLoadLines(columns), ProbePrefix) == CountDeclared(columns)
  {
    PreambleIsNoFieldLine();
    CountPrefixedAppend([Preamble], FieldsLoadLines(columns), IndexPrefix);
    CountPrefixedAppend([Preamble], FieldsLoadLines(columns), ProbePrefix);
    IndexCount(columns);
    ProbeCount(columns);
  }
}
