/**
 * Pieces shared by the two code emitters: the identifiers the generated code
 * uses, the column-name rule, and generated code viewed as a sequence of
 * lines (each line is the text of one or more appends, ending in "\n"; the
 * emitted string is their concatenation).
 */
module CodeText {
  import opened Elements

  // Identifiers used inside the generated methods.
  const ModelVar := "model"
  const CursorVar := "cursor"
  const ContentValuesVar := "contentValues"
  const ColumnsOrderedVar := "columnsOrdered"

  /** The serialization probe both emitters open an object-typed field with. */
  const ProbePrefix := "    if (ModelHelper.isSerializable("

  /** The `else` of the probe's if/else. */
  const ElseLine := "    } else {\n"

  /** The line that closes the probe's if/else. */
  const CloseLine := "    }\n"

  /**
   * The column a field maps to: the annotation's `name` when it is neither
   * null nor empty, else the field's simple name.
   */
  function ColumnName(column: Element): (name: string)
    ensures !NullOrEmpty(column.annotation.name) ==> name == column.annotation.name.value
    ensures NullOrEmpty(column.annotation.name) ==> name == column.simpleName
  {
    var name := column.annotation.name;
    if name.None? || name.value == [] then column.simpleName else name.value
  }

  /** The class literal of a field's type: its printed name followed by ".class". */
  function ClassLiteral(t: TypeMirror): string
  {
    t.printed + ".class"
  }

  /** `model.<field>`: how generated code reads or writes the field. */
  function FieldAccess(column: Element): string
  {
    ModelVar + "." + column.simpleName
  }

  /** The serialization probe for a type. */
  function ProbeLine(t: TypeMirror): string
  {
    ProbePrefix + ClassLiteral(t) + ")) {\n"
  }

  /** How many of the columns have a declared (non-primitive) type. */
  function CountDeclared(columns: seq<Element>): nat
  {
    if columns == [] then 0
    else CountDeclared(columns[..|columns| - 1]) + (if IsDeclared(columns[|columns| - 1].asType) then 1 else 0)
  }

  /** The concatenation of a sequence of lines. */
  function Join(lines: seq<string>): string
  {
    if lines == [] then "" else lines[0] + Join(lines[1..])
  }

  /** Peeling one line off the front of a suffix. */
  lemma JoinFrom(lines: seq<string>, k: nat)
    requires k < |lines|
    ensures Join(lines[k..]) == lines[k] + Join(lines[k + 1..])
  {
    assert lines[k..][1..] == lines[k + 1..];
  }

  lemma {:induction false} JoinAppend(a: seq<string>, b: seq<string>)
    ensures Join(a + b) == Join(a) + Join(b)
  {
    if a != [] {
      assert (a + b)[1..] == a[1..] + b;
      JoinAppend(a[1..], b);
    } else {
      assert a + b == b;
    }
  }

  /** Appending a line to the text appends it to the sequence of lines. */
  lemma JoinSnoc(lines: seq<string>, line: string)
    ensures Join(lines + [line]) == Join(lines) + line
  {
    JoinAppend(lines, [line]);
    assert [line][1..] == [];
  }

  /** `StringBuilder.append`, keeping the lines appended so far alongside the text. */
  method Append(builder: string, ghost lines: seq<string>, line: string)
    returns (builder': string, ghost lines': seq<string>)
    requires builder == Join(lines)
    ensures lines' == lines + [line]
    ensures builder' == Join(lines')
  {
    builder' := builder + line;
    lines' := lines + [line];
    JoinSnoc(lines, line);
  }

  /** Appending two blocks in turn appends their concatenation. */
  lemma AppendAssociative<T>(a: seq<T>, b: seq<T>, c: seq<T>)
    ensures (a + b) + c == a + (b + c)
  {
  }

  /** How many of the lines start with `prefix`. */
  function CountPrefixed(lines: seq<string>, prefix: string): nat
  {
    if lines == [] then 0
    else (if prefix <= lines[0] then 1 else 0) + CountPrefixed(lines[1..], prefix)
  }

  lemma {:induction false} CountPrefixedAppend(a: seq<string>, b: seq<string>, prefix: string)
    ensures CountPrefixed(a + b, prefix) == CountPrefixed(a, prefix) + CountPrefixed(b, prefix)
  {
    if a != [] {
      assert (a + b)[1..] == a[1..] + b;
      CountPrefixedAppend(a[1..], b, prefix);
    } else {
      assert a + b == b;
    }
  }

  /** A line that differs from `prefix` at position `k` does not start with it. */
  lemma DiffersAt(prefix: string, line: string, k: nat)
    requires k < |prefix| && k < |line| && prefix[k] != line[k]
    ensures !(prefix <= line)
  {
  }

  /** A string starts with whatever is put in front of it. */
  lemma HeadOfConcat(head: string, rest: string)
    ensures head <= head + rest
  {
    assert (head + rest)[..|head|] == head;
  }

  /** Line `at` is the only one starting with `prefix`. */
  predicate OnlyLineStartingWith(lines: seq<string>, prefix: string, at: int)
  {
    0 <= at < |lines| && prefix <= lines[at] &&
    forall k :: 0 <= k < |lines| && k != at ==> !(prefix <= lines[k])
  }

  /** No line starts with `prefix`. */
  predicate NoLineStartsWith(lines: seq<string>, prefix: string)
  {
    forall k :: 0 <= k < |lines| ==> !(prefix <= lines[k])
  }

  /** A block where no line starts with `prefix` leaves the lines after it as they are. */
  lemma NoneThenOnly(first: seq<string>, second: seq<string>, prefix: string, at: int)
    requires NoLineStartsWith(first, prefix) && OnlyLineStartingWith(second, prefix, at)
    ensures OnlyLineStartingWith(first + second, prefix, |first| + at)
  {
    var lines := first + second;
    forall k | 0 <= k < |lines| && k != |first| + at
      ensures !(prefix <= lines[k])
    {
      if k >= |first| {
        assert lines[k] == second[k - |first|];
      }
    }
  }

  lemma OnlyThenNone(first: seq<string>, second: seq<string>, prefix: string, at: int)
    requires OnlyLineStartingWith(first, prefix, at) && NoLineStartsWith(second, prefix)
    ensures OnlyLineStartingWith(first + second, prefix, at)
  {
    var lines := first + second;
    forall k | 0 <= k < |lines| && k != at
      ensures !(prefix <= lines[k])
    {
      if k >= |first| {
        assert lines[k] == second[k - |first|];
      }
    }
  }

  lemma NoneThenNone(first: seq<string>, second: seq<string>, prefix: string)
    requires NoLineStartsWith(first, prefix) && NoLineStartsWith(second, prefix)
    ensures NoLineStartsWith(first + second, prefix)
  {
    var lines := first + second;
    forall k | 0 <= k < |lines|
      ensures !(prefix <= lines[k])
    {
      if k >= |first| {
        assert lines[k] == second[k - |first|];
      }
    }
  }

  lemma {:induction false} CountNone(lines: seq<string>, prefix: string)
    requires NoLineStartsWith(lines, prefix)
    ensures CountPrefixed(lines, prefix) == 0
  {
    if lines != [] {
      assert !(prefix <= lines[0]);
      CountNone(lines[1..], prefix);
    }
  }

  lemma {:induction false} CountOnly(lines: seq<string>, prefix: string, at: int)
    requires OnlyLineStartingWith(lines, prefix, at)
    ensures CountPrefixed(lines, prefix) == 1
  {
    if at == 0 {
      CountNone(lines[1..], prefix);
    } else {
      assert !(prefix <= lines[0]);
      CountOnly(lines[1..], prefix, at - 1);
    }
  }
}
