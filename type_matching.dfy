/**
 * `isTypeOf`: does a field's type, or one of its superclasses, carry the
 * name of a given class? The class name is `Class.getName()` and the type's
 * name is its printed form; both are kept as opaque strings, so for example
 * the class name "[B" is not assumed to equal the printed "byte[]".
 */
module TypeMatching {
  import opened Elements

  // `Class.getName()` of every class the two dispatch tables test.
  const IntegerClass := "java.lang.Integer"
  const ByteClass := "java.lang.Byte"
  const ShortClass := "java.lang.Short"
  const LongClass := "java.lang.Long"
  const FloatClass := "java.lang.Float"
  const DoubleClass := "java.lang.Double"
  const BooleanClass := "java.lang.Boolean"
  const CharacterClass := "java.lang.Character"
  const StringClass := "java.lang.String"
  const IntClass := "int"
  const PrimByteClass := "byte"
  const PrimShortClass := "short"
  const PrimLongClass := "long"
  const PrimFloatClass := "float"
  const PrimDoubleClass := "double"
  const PrimBooleanClass := "boolean"
  const CharClass := "char"
  const ByteArrayClass := "[B"
  const BoxedByteArrayClass := "[Ljava.lang.Byte;"
  const ModelClass := "com.activeandroid.Model"
  const EnumClass := "java.lang.Enum"

  /** Every class name either dispatch table tests. */
  const TestedClasses: set<string> :=
    {IntegerClass, ByteClass, ShortClass, LongClass, FloatClass, DoubleClass, BooleanClass, CharacterClass,
     StringClass, IntClass, PrimByteClass, PrimShortClass, PrimLongClass, PrimFloatClass, PrimDoubleClass,
     PrimBooleanClass, CharClass, ByteArrayClass, BoxedByteArrayClass, ModelClass, EnumClass}

  /**
   * The type matches when the class name equals its printed name; otherwise a
   * declared type whose element is a type declaration defers to its
   * superclass; anything else does not match.
   */
  function IsTypeOf(t: TypeMirror, className: string): bool
    decreases t
  {
    if className == t.printed then true
    else match t
      case DeclaredType(_, TypeDeclaration(superclass)) => IsTypeOf(superclass, className)
      case _ => false
  }

  /** Does the type match at least one of the classes named? */
  predicate MatchesAny(t: TypeMirror, classNames: seq<string>)
  {
    exists name :: name in classNames && IsTypeOf(t, name)
  }

  /**
   * An if/else-if chain over a table of branches, each testing a list of
   * classes: the position of the first branch the type matches, or the
   * length of the table when none does.
   */
  function FirstMatchIndex<A>(t: TypeMirror, branches: seq<A>, tests: A -> seq<string>): (k: nat)
    ensures k <= |branches|
  {
    if branches == [] then 0
    else if MatchesAny(t, tests(branches[0])) then 0
    else 1 + FirstMatchIndex(t, branches[1..], tests)
  }

  /** The branch an if/else-if chain takes, or `fallback` for its final `else`. */
  function Chosen<A>(t: TypeMirror, branches: seq<A>, tests: A -> seq<string>, fallback: A): A
  {
    var k := FirstMatchIndex(t, branches, tests);
    if k < |branches| then branches[k] else fallback
  }

  /**
   * First match wins: the fallback is taken exactly when no branch matches;
   * otherwise the branch chosen matches the type and no branch tried before
   * it does.
   */
  lemma ChosenIsFirstMatch<A>(t: TypeMirror, branches: seq<A>, tests: A -> seq<string>, fallback: A)
    requires fallback !in branches
    ensures Chosen(t, branches, tests, fallback) == fallback <==>
              forall a :: a in branches ==> !MatchesAny(t, tests(a))
    ensures Chosen(t, branches, tests, fallback) != fallback ==>
              MatchesAny(t, tests(Chosen(t, branches, tests, fallback))) &&
              exists k :: 0 <= k < |branches| && branches[k] == Chosen(t, branches, tests, fallback) &&
                          forall j :: 0 <= j < k ==> !MatchesAny(t, tests(branches[j]))
  {
    FirstMatchWins(t, branches, tests);
    var k := FirstMatchIndex(t, branches, tests);
    if k < |branches| {
      assert branches[k] in branches;
    }
  }

  /**
   * The value an if/else-if chain produces: `value` of the first branch
   * whose classes the type matches, or `fallback` from the final `else`.
   */
  function Chain<A, R>(t: TypeMirror, branches: seq<A>, tests: A -> seq<string>, value: A -> R, fallback: R): R
  {
    if branches == [] then fallback
    else if MatchesAny(t, tests(branches[0])) then value(branches[0])
    else Chain(t, branches[1..], tests, value, fallback)
  }

  /** The chain yields the value of the branch at the first matching position, or the fallback. */
  lemma {:induction false} ChainTakesFirstMatch<A, R>(t: TypeMirror, branches: seq<A>, tests: A -> seq<string>,
                                                      value: A -> R, fallback: R)
    ensures FirstMatchIndex(t, branches, tests) < |branches| ==>
              Chain(t, branches, tests, value, fallback) == value(branches[FirstMatchIndex(t, branches, tests)])
    ensures FirstMatchIndex(t, branches, tests) == |branches| ==>
              Chain(t, branches, tests, value, fallback) == fallback
  {
    if branches != [] && !MatchesAny(t, tests(branches[0])) {
      ChainTakesFirstMatch(t, branches[1..], tests, value, fallback);
    }
  }

  /** The branch taken matches the type, and no branch tried before it does. */
  lemma {:induction false} FirstMatchWins<A>(t: TypeMirror, branches: seq<A>, tests: A -> seq<string>)
    ensures FirstMatchIndex(t, branches, tests) < |branches| ==>
              MatchesAny(t, tests(branches[FirstMatchIndex(t, branches, tests)]))
    ensures forall j :: 0 <= j < FirstMatchIndex(t, branches, tests) ==> !MatchesAny(t, tests(branches[j]))
  {
    if branches != [] && !MatchesAny(t, tests(branches[0])) {
      var rest := branches[1..];
      FirstMatchWins(t, rest, tests);
      forall j | 0 < j < FirstMatchIndex(t, branches, tests)
        ensures !MatchesAny(t, tests(branches[j]))
      {
        assert branches[j] == rest[j - 1];
      }
    }
  }

  /**
   * The type followed by its superclasses, as far as `isTypeOf` can walk:
   * the walk stops at the first type that is not a declared type backed by a
   * type declaration.
   */
  function SuperChain(t: TypeMirror): (chain: seq<TypeMirror>)
    ensures |chain| >= 1 && chain[0] == t
    decreases t
  {
    match t
    case DeclaredType(_, TypeDeclaration(superclass)) => [t] + SuperChain(superclass)
    case _ => [t]
  }

  /** `isTypeOf(t, C)` holds exactly when some type on t's superclass chain prints as C. */
  lemma {:induction false} IsTypeOfMeansNameOnChain(t: TypeMirror, className: string)
    ensures IsTypeOf(t, className) <==>
            exists k :: 0 <= k < |SuperChain(t)| && SuperChain(t)[k].printed == className
    decreases t
  {
    match t
    case DeclaredType(_, TypeDeclaration(superclass)) =>
      IsTypeOfMeansNameOnChain(superclass, className);
      var chain := SuperChain(t);
      assert chain == [t] + SuperChain(superclass);
      if IsTypeOf(t, className) {
        if className == t.printed {
          assert 0 < |SuperChain(t)| && SuperChain(t)[0].printed == className;
        } else {
          var k :| 0 <= k < |SuperChain(superclass)| && SuperChain(superclass)[k].printed == className;
          assert k + 1 < |SuperChain(t)| && SuperChain(t)[k + 1] == SuperChain(superclass)[k];
        }
      } else {
        forall k | 0 <= k < |chain|
          ensures chain[k].printed != className
        {
          if k > 0 {
            assert chain[k] == SuperChain(superclass)[k - 1];
          }
        }
      }
    case _ =>
      assert SuperChain(t) == [t];
  }

  /** The chain of an ancestor is the tail of the chain of its descendant. */
  lemma {:induction false} SuperChainOfAncestor(t: TypeMirror, k: nat)
    requires k < |SuperChain(t)|
    ensures SuperChain(SuperChain(t)[k]) == SuperChain(t)[k..]
    decreases t
  {
    if k > 0 {
      match t
      case DeclaredType(_, TypeDeclaration(superclass)) =>
        SuperChainOfAncestor(superclass, k - 1);
        assert SuperChain(t)[k..] == SuperChain(superclass)[k - 1..];
      case _ =>
    }
  }

  /** A type matches a class whenever one of its ancestors does. */
  lemma AncestorMatchIsInherited(t: TypeMirror, k: nat, className: string)
    requires k < |SuperChain(t)|
    requires IsTypeOf(SuperChain(t)[k], className)
    ensures IsTypeOf(t, className)
  {
    var ancestor := SuperChain(t)[k];
    IsTypeOfMeansNameOnChain(ancestor, className);
    SuperChainOfAncestor(t, k);
    var j :| 0 <= j < |SuperChain(ancestor)| && SuperChain(ancestor)[j].printed == className;
    assert SuperChain(t)[k + j] == SuperChain(ancestor)[j];
    IsTypeOfMeansNameOnChain(t, className);
  }

  /** `java.lang.Object`, whose superclass the compiler presents as the type "none". */
  const ObjectType: TypeMirror := DeclaredType("java.lang.Object", TypeDeclaration(OtherType("none")))

  /**
   * The enum type named `name` as the compiler presents it: its superclass
   * prints with its type argument, "java.lang.Enum<" + name + ">", and
   * extends `java.lang.Object`.
   */
  function EnumType(name: string): TypeMirror
  {
    DeclaredType(name, TypeDeclaration(DeclaredType(EnumClass + "<" + name + ">", TypeDeclaration(ObjectType))))
  }

  /**
   * The printed superclass of an enum is never a tested class name: it has
   * '<' right after "java.lang.Enum", which no tested name has there.
   */
  lemma EnumSuperclassIsUntested(name: string)
    ensures EnumClass + "<" + name + ">" !in TestedClasses
  {
    var printed := EnumClass + "<" + name + ">";
    assert printed[14] == '<';
    forall c | c in TestedClasses
      ensures c != printed
    {
      if 14 < |c| {
        assert c[14] != '<';
      }
    }
  }

  /**
   * No type on an enum's superclass chain prints as a class name either
   * table tests, `java.lang.Enum` included, for any enum whose own name is
   * not itself a tested name.
   */
  lemma EnumChainIsUntested(name: string)
    requires name !in TestedClasses
    ensures forall k :: 0 <= k < |SuperChain(EnumType(name))| ==> SuperChain(EnumType(name))[k].printed !in TestedClasses
  {
    var t := EnumType(name);
    var superclass := t.element.superclass;
    assert SuperChain(ObjectType) == [ObjectType, OtherType("none")];
    assert SuperChain(superclass) == [superclass] + SuperChain(ObjectType);
    assert SuperChain(t) == [t, superclass, ObjectType, OtherType("none")];
    EnumSuperclassIsUntested(name);
    assert "java.lang.Object" !in TestedClasses;
    assert "none" !in TestedClasses;
  }

  /** A type that is not a declared type matches only its own printed name. */
  lemma NonDeclaredMatchesOnlyItself(t: TypeMirror, className: string)
    requires !IsDeclared(t)
    ensures IsTypeOf(t, className) <==> className == t.printed
  {
  }
}
