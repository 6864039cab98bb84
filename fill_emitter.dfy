/**
 * `getFillContentValuesCode`: the body of the generated `fillContentValues`.
 * For every column field it writes the field's value under the column name
 * through the `put` form the type table picks. Fields of a declared type go
 * through the serialization probe and a null test first, and get a trailing
 * `putNull` unless the annotation gives a default value.
 */
module FillEmitter {
  import opened Elements
  import opened TypeMatching
  import opened CodeText

  /** The branches of the fill table, in the order they are tried. */
  datatype FillAccessor =
    | IntegerPut | BytePut | ShortPut | LongPut | FloatPut | DoublePut | BooleanPut
    | CharacterPut | StringPut | BlobPut | ModelPut | EnumPut
    | NoPut

  /** The classes each branch tests: the wrapper first, then the primitive or array form. */
  function FillTests(a: FillAccessor): seq<string>
  {
    match a
    case IntegerPut => [IntegerClass, IntClass]
    case BytePut => [ByteClass, PrimByteClass]
    case ShortPut => [ShortClass, PrimShortClass]
    case LongPut => [LongClass, PrimLongClass]
    case FloatPut => [FloatClass, PrimFloatClass]
    case DoublePut => [DoubleClass, PrimDoubleClass]
    case BooleanPut => [BooleanClass, PrimBooleanClass]
    case CharacterPut => [CharacterClass, CharClass]
    case StringPut => [StringClass]
    case BlobPut => [BoxedByteArrayClass, ByteArrayClass]
    case ModelPut => [ModelClass]
    case EnumPut => [EnumClass]
    case NoPut => []
  }

  /** The branches of the if/else-if chain, in the order they are tried. */
  const FillTable: seq<FillAccessor> :=
    [IntegerPut, BytePut, ShortPut, LongPut, FloatPut, DoublePut, BooleanPut,
     CharacterPut, StringPut, BlobPut, ModelPut, EnumPut]

  /** The branch the fill emitter's if/else-if chain takes; `NoPut` is its final `else`. */
  function FillAccessorOf(t: TypeMirror): FillAccessor
  {
    Chosen(t, FillTable, FillTests, NoPut)
  }

  /** `ChosenIsFirstMatch` for this chain. */
  lemma FillAccessorIsFirstMatch(t: TypeMirror)
    ensures FillAccessorOf(t) == NoPut <==> forall a :: a in FillTable ==> !MatchesAny(t, FillTests(a))
    ensures FillAccessorOf(t) != NoPut ==>
              MatchesAny(t, FillTests(FillAccessorOf(t))) &&
              exists k :: 0 <= k < |FillTable| && FillTable[k] == FillAccessorOf(t) &&
                          forall j :: 0 <= j < k ==> !MatchesAny(t, FillTests(FillTable[j]))
  {
    ChosenIsFirstMatch(t, FillTable, FillTests, NoPut);
  }

  /** The call on `contentValues` (after "contentValues.") a branch makes for column `name` and field access `value`. */
  function FillCall(a: FillAccessor, name: string, value: string): string
  {
    match a
    case IntegerPut => "put(\"" + name + "\", " + value + ");\n"
    case BytePut => "put(\"" + name + "\", " + value + ");\n"
    case ShortPut => "put(\"" + name + "\", " + value + ");\n"
    case LongPut => "put(\"" + name + "\", " + value + ");\n"
    case FloatPut => "put(\"" + name + "\", " + value + ");\n"
    case DoublePut => "put(\"" + name + "\", " + value + ");\n"
    case BooleanPut => "put(\"" + name + "\", " + value + ");\n"
    case CharacterPut => "put(\"" + name + "\", " + value + ".toString());\n"
    case StringPut => "put(\"" + name + "\", " + value + ".toString());\n"
    case BlobPut => "put(\"" + name + "\", " + value + ");\n"
    case ModelPut => "put(\"" + name + "\", " + value + ".getId());\n"
    case EnumPut => "put(\"" + name + "\", " + value + ".name());\n"
    case NoPut => "putNull(\"" + name + "\");\n"
  }

  /** `FillCall` for a fixed column name and field access, as a function value. */
  function Writer(name: string, value: string): FillAccessor -> string
  {
    a => FillCall(a, name, value)
  }

  /** The call on `contentValues` the fill emitter's if/else-if chain makes for the field. */
  function FillPut(column: Element): string
  {
    var name := ColumnName(column);
    var value := FieldAccess(column);
    Chain(column.asType, FillTable, FillTests, Writer(name, value), FillCall(NoPut, name, value))
  }

  /** The call made is the one of the branch `FillAccessorOf` picks. */
  lemma FillPutOfChosenBranch(column: Element)
    ensures FillPut(column) == FillCall(FillAccessorOf(column.asType), ColumnName(column), FieldAccess(column))
  {
    var name := ColumnName(column);
    var value := FieldAccess(column);
    ChainTakesFirstMatch(column.asType, FillTable, FillTests, Writer(name, value), FillCall(NoPut, name, value));
  }

  /** Every class a branch tests is one of the tested classes. */
  lemma FillTestsAreTested(a: FillAccessor)
    ensures forall name :: name in FillTests(a) ==> name in TestedClasses
  {
  }

  /**
   * A type none of whose superclass chain prints as a class name the chain
   * tests falls through to the final `else`: the column is written
   * as null.
   */
  lemma UnmatchedTypeWritesNull(column: Element)
    requires forall k :: 0 <= k < |SuperChain(column.asType)| ==> SuperChain(column.asType)[k].printed !in TestedClasses
    ensures FillAccessorOf(column.asType) == NoPut
    ensures FillPut(column) == PutNullCall(ColumnName(column))
  {
    var t := column.asType;
    forall a | a in FillTable
      ensures !MatchesAny(t, FillTests(a))
    {
      FillTestsAreTested(a);
      forall name | name in FillTests(a)
        ensures !IsTypeOf(t, name)
      {
        IsTypeOfMeansNameOnChain(t, name);
      }
    }
    FillAccessorIsFirstMatch(t);
    FillPutOfChosenBranch(column);
  }

  /**
   * As written, a `byte[]` or `Byte[]` field never reaches the blob branch
   * (its printed name is not the tested class name), so its column is
   * written as null.
   */
  lemma ByteArrayFieldsWriteNull(column: Element)
    requires column.asType == OtherType("byte[]") || column.asType == OtherType("java.lang.Byte[]")
    ensures FillAccessorOf(column.asType) == NoPut
    ensures FillPut(column) == PutNullCall(ColumnName(column))
  {
    assert SuperChain(column.asType) == [column.asType];
    assert "byte[]" !in TestedClasses;
    assert "java.lang.Byte[]" !in TestedClasses;
    UnmatchedTypeWritesNull(column);
  }

  /**
   * The superclass of an enum prints with its type argument, never as the
   * tested "java.lang.Enum": as written, an enum field falls through every
   * branch.
   */
  lemma EnumFieldsWriteNull(column: Element, name: string)
    requires name !in TestedClasses && column.asType == EnumType(name)
    ensures FillAccessorOf(column.asType) == NoPut
    ensures FillPut(column) == PutNullCall(ColumnName(column))
  {
    EnumChainIsUntested(name);
    UnmatchedTypeWritesNull(column);
  }


  /**
   * How each kind of field turns into a stored value: a model by its id, an
   * enum by its name, a character or string by its text, anything else as is.
   */
  function Conversion(a: FillAccessor): string
  {
    match a
    case CharacterPut => ".toString()"
    case StringPut => ".toString()"
    case ModelPut => ".getId()"
    case EnumPut => ".name()"
    case _ => ""
  }

  /** `putNull("<name>");` */
  function PutNullCall(name: string): string
  {
    "putNull(\"" + name + "\");\n"
  }

  /** The `putNull` in the `else` branch that follows the null test. */
  function PutNullLine(column: Element): string
  {
    "      " + ContentValuesVar + "." + PutNullCall(ColumnName(column))
  }

  /** The write through the serialization helper, for a declared type. */
  function SerializedWriteLine(column: Element): string
  {
    var t := column.asType;
    "      ModelHelper.setSerializable(" + ContentValuesVar + ", " + ClassLiteral(t) + ", "
    + FieldAccess(column) + ", \"" + ColumnName(column) + "\");\n"
  }

  /** `} else if (model.<field> != null) {` */
  function NotNullLine(column: Element): string
  {
    "    } else if (" + FieldAccess(column) + " != null) {\n"
  }

  /** Whether the annotation leaves the default value null or empty. */
  predicate NoDefault(column: Element)
  {
    NullOrEmpty(column.annotation.defaultValue)
  }

  /** The lines emitted for one column field. */
  function FieldFillLines(column: Element): seq<string>
  {
    LinesPutting(column, FillPut(column))
  }

  /** The lines for one column field, with `put` as the call on `contentValues`. */
  function LinesPutting(column: Element, put: string): seq<string>
  {
    PutOpening(column, put) + PutClosing(column)
  }

  /** Up to the write itself: for a declared type, the probe and the `!= null` test first. */
  function PutOpening(column: Element, put: string): seq<string>
  {
    if IsDeclared(column.asType) then
      [ProbeLine(column.asType), SerializedWriteLine(column), NotNullLine(column), "      " + ContentValuesVar + "." + put]
    else
      ["    " + ContentValuesVar + "." + put]
  }

  /** After the write: for a declared type, the `putNull` branch when there is no default, then the closing brace. */
  function PutClosing(column: Element): seq<string>
  {
    if IsDeclared(column.asType) then
      (if NoDefault(column) then [ElseLine, PutNullLine(column)] else []) + [CloseLine]
    else
      []
  }

  /** The lines emitted for the columns, in iteration order. */
  function FieldsFillLines(columns: seq<Element>): seq<string>
  {
    if columns == [] then []
    else FieldsFillLines(columns[..|columns| - 1]) + FieldFillLines(columns[|columns| - 1])
  }

  lemma FieldsFillLinesSnoc(columns: seq<Element>, k: nat)
    requires k < |columns|
    ensures FieldsFillLines(columns[..k + 1]) == FieldsFillLines(columns[..k]) + FieldFillLines(columns[k])
  {
    assert columns[..k + 1][..k] == columns[..k];
  }

  /** The text `getFillContentValuesCode` returns for the columns in this iteration order. */
  function FillContentValuesCode(columns: seq<Element>): string
  {
    Join(FieldsFillLines(columns))
  }

  /** How many of the columns are of a declared type and have no default value. */
  function CountPutNull(columns: seq<Element>): nat
  {
    if columns == [] then 0
    else
      var last := columns[|columns| - 1];
      CountPutNull(columns[..|columns| - 1]) + (if IsDeclared(last.asType) && NoDefault(last) then 1 else 0)
  }

  /**
   * The emitter loop: one pass over the columns in iteration order, appending
   * each field's code to the builder.
   */
  method GetFillContentValuesCode(columns: seq<Element>) returns (code: string)
    ensures code == FillContentValuesCode(columns)
  {
    var builder := "";
    ghost var emitted: seq<string> := [];
    for k := 0 to |columns|
      invariant emitted == FieldsFillLines(columns[..k])
      invariant builder == Join(emitted)
    {
      builder, emitted := AppendColumnFill(builder, emitted, columns[k]);
      FieldsFillLinesSnoc(columns, k);
    }
    assert columns[..|columns|] == columns;
    code := builder;
  }

  /** The body of the emitter loop for one column field. */
  method AppendColumnFill(builder: string, ghost emitted: seq<string>, column: Element)
    returns (builder': string, ghost emitted': seq<string>)
    requires builder == Join(emitted)
    ensures emitted' == emitted + FieldFillLines(column)
    ensures builder' == Join(emitted')
  {
    var put := FillPut(column);
    ghost var middle;
    builder', middle := AppendPutOpening(builder, emitted, column, put);
    builder', emitted' := AppendPutClosing(builder', middle, column);
    AppendAssociative(emitted, PutOpening(column, put), PutClosing(column));
  }

  /** The probe, the serialized write and the `!= null` test of a declared type, then the write. */
  method AppendPutOpening(builder: string, ghost emitted: seq<string>, column: Element, put: string)
    returns (builder': string, ghost emitted': seq<string>)
    requires builder == Join(emitted)
    ensures emitted' == emitted + PutOpening(column, put)
    ensures builder' == Join(emitted')
  {
    var typeMirror := column.asType;
    var notPrimitiveType := typeMirror.DeclaredType?;
    builder', emitted' := builder, emitted;
    var indent: string;
    if notPrimitiveType {
      builder', emitted' := Append(builder', emitted', ProbeLine(typeMirror));
      builder', emitted' := Append(builder', emitted', SerializedWriteLine(column));
      builder', emitted' := Append(builder', emitted', NotNullLine(column));
      indent := "      ";
    } else {
      indent := "    ";
    }
    builder', emitted' := Append(builder', emitted', indent + ContentValuesVar + "." + put);
  }

  /** For a declared type: the `putNull` branch when there is no default value, then the closing brace. */
  method AppendPutClosing(builder: string, ghost emitted: seq<string>, column: Element)
    returns (builder': string, ghost emitted': seq<string>)
    requires builder == Join(emitted)
    ensures emitted' == emitted + PutClosing(column)
    ensures builder' == Join(emitted')
  {
    var notPrimitiveType := column.asType.DeclaredType?;
    builder', emitted' := builder, emitted;
    if notPrimitiveType {
      var defaultValue := column.annotation.defaultValue;
      if defaultValue.None? || defaultValue.value == [] {
        builder', emitted' := Append(builder', emitted', ElseLine);
        builder', emitted' := Append(builder', emitted', PutNullLine(column));
      }
      builder', emitted' := Append(builder', emitted', CloseLine);
    }
  }

  /**
   * A field of a declared type opens with the serialization probe, then
   * writes under a `!= null` test and closes the block; any other field is
   * written by a single unconditional line.
   */
  lemma ProbeAndNullTestIffDeclared(column: Element)
    ensures IsDeclared(column.asType) ==>
              OnlyLineStartingWith(FieldFillLines(column), ProbePrefix, 0) &&
              FieldFillLines(column)[0] == ProbeLine(column.asType) &&
              FieldFillLines(column)[1] == SerializedWriteLine(column) &&
              FieldFillLines(column)[2] == NotNullLine(column) &&
              FieldFillLines(column)[3] == "      " + ContentValuesVar + "." + FillPut(column) &&
              FieldFillLines(column)[|FieldFillLines(column)| - 1] == CloseLine
    ensures !IsDeclared(column.asType) ==>
              NoLineStartsWith(FieldFillLines(column), ProbePrefix) &&
              FieldFillLines(column) == ["    " + ContentValuesVar + "." + FillPut(column)]
  {
    ProbeLinesOf(column, FillPut(column));
  }

  /** `ProbeAndNullTestIffDeclared`, whatever call the write makes. */
  lemma ProbeLinesOf(column: Element, put: string)
    ensures IsDeclared(column.asType) ==>
              OnlyLineStartingWith(LinesPutting(column, put), ProbePrefix, 0) &&
              LinesPutting(column, put)[0] == ProbeLine(column.asType) &&
              LinesPutting(column, put)[1] == SerializedWriteLine(column) &&
              LinesPutting(column, put)[2] == NotNullLine(column) &&
              LinesPutting(column, put)[3] == "      " + ContentValuesVar + "." + put &&
              LinesPutting(column, put)[|LinesPutting(column, put)| - 1] == CloseLine
    ensures !IsDeclared(column.asType) ==>
              NoLineStartsWith(LinesPutting(column, put), ProbePrefix) &&
              LinesPutting(column, put) == ["    " + ContentValuesVar + "." + put]
  {
    var opening := PutOpening(column, put);
    var closing := PutClosing(column);
    forall k | 0 < k < |opening|
      ensures !(ProbePrefix <= opening[k])
    {
      DiffersAt(ProbePrefix, opening[k], 4);
    }
    forall k | 0 <= k < |closing|
      ensures !(ProbePrefix <= closing[k])
    {
      DiffersAt(ProbePrefix, closing[k], 4);
    }
    if IsDeclared(column.asType) {
      assert OnlyLineStartingWith(opening, ProbePrefix, 0);
      OnlyThenNone(opening, closing, ProbePrefix, 0);
    } else {
      DiffersAt(ProbePrefix, opening[0], 4);
      assert closing == [];
      assert opening + closing == opening;
    }
  }


  /**
   * The trailing `} else { contentValues.putNull(...) }` is emitted exactly
   * for a field of a declared type whose default value is null or empty.
   */
  lemma PutNullBranchIffNoDefault(column: Element)
    ensures IsDeclared(column.asType) && NoDefault(column) ==>
              OnlyLineStartingWith(FieldFillLines(column), ElseLine, 4) &&
              FieldFillLines(column)[5] == PutNullLine(column)
    ensures !(IsDeclared(column.asType) && NoDefault(column)) ==>
              NoLineStartsWith(FieldFillLines(column), ElseLine)
  {
    ElseLinesOf(column, FillPut(column));
  }

  /** `PutNullBranchIffNoDefault`, whatever call the branch makes. */
  lemma ElseLinesOf(column: Element, put: string)
    ensures IsDeclared(column.asType) && NoDefault(column) ==>
              OnlyLineStartingWith(LinesPutting(column, put), ElseLine, 4) &&
              LinesPutting(column, put)[5] == PutNullLine(column)
    ensures !(IsDeclared(column.asType) && NoDefault(column)) ==>
              NoLineStartsWith(LinesPutting(column, put), ElseLine)
  {
    var opening := PutOpening(column, put);
    var closing := PutClosing(column);
    forall k | 0 <= k < |opening|
      ensures !(ElseLine <= opening[k])
    {
      if IsDeclared(column.asType) && k == 2 {
        DiffersAt(ElseLine, opening[k], 11);
      } else {
        DiffersAt(ElseLine, opening[k], 4);
      }
    }
    DiffersAt(ElseLine, CloseLine, 5);
    if IsDeclared(column.asType) && NoDefault(column) {
      DiffersAt(ElseLine, PutNullLine(column), 4);
      assert OnlyLineStartingWith(closing, ElseLine, 0);
      NoneThenOnly(opening, closing, ElseLine, 0);
    } else {
      assert NoLineStartsWith(closing, ElseLine);
      NoneThenNone(opening, closing, ElseLine);
    }
  }

  /**
   * Every write is keyed by the resolved column name and reads the field
   * itself: a model by its id, an enum by its name, a character or string by
   * its text, anything else as is; an unsupported type writes `putNull`.
   */
  lemma PutWritesFieldUnderColumnName(column: Element)
    ensures FillAccessorOf(column.asType) != NoPut ==>
              FillPut(column) == "put(\"" + ColumnName(column) + "\", "
                                 + FieldAccess(column) + Conversion(FillAccessorOf(column.asType)) + ");\n"
    ensures FillAccessorOf(column.asType) == NoPut ==> FillPut(column) == PutNullCall(ColumnName(column))
  {
    FillPutOfChosenBranch(column);
  }

  /**
   * Over the whole method body: one serialization probe per column of a
   * declared type, and one trailing `putNull` branch per such column without
   * a default value.
   */
  lemma {:induction false} FillCodeCounts(columns: seq<Element>)
    ensures CountPrefixed(FieldsFillLines(columns), ProbePrefix) == CountDeclared(columns)
    ensures CountPrefixed(FieldsFillLines(columns), ElseLine) == CountPutNull(columns)
  {
    if columns != [] {
      var init := columns[..|columns| - 1];
      var last := columns[|columns| - 1];
      FillCodeCounts(init);
      CountPrefixedAppend(FieldsFillLines(init), FieldFillLines(last), ProbePrefix);
      CountPrefixedAppend(FieldsFillLines(init), FieldFillLines(last), ElseLine);
      ProbeAndNullTestIffDeclared(last);
      if IsDeclared(last.asType) {
        CountOnly(FieldFillLines(last), ProbePrefix, 0);
      } else {
        CountNone(FieldFillLines(last), ProbePrefix);
      }
      PutNullBranchIffNoDefault(last);
      if IsDeclared(last.asType) && NoDefault(last) {
        CountOnly(FieldFillLines(last), ElseLine, 4);
      } else {
        CountNone(FieldFillLines(last), ElseLine);
      }
    }
  }
}
