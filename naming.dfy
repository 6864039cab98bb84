/**
 * `getClassName`: the name of the generated filler class is the model
 * class's qualified name with the package prefix cut off and every remaining
 * '.' (a nesting step) turned into '$'.
 */
module Naming {

  /** Java's `String.replace(from, to)` on single characters. */
  function ReplaceChar(s: string, from: char, to: char): (r: string)
    ensures |r| == |s|
    ensures forall k :: 0 <= k < |s| ==> r[k] == if s[k] == from then to else s[k]
  {
    if s == [] then [] else [if s[0] == from then to else s[0]] + ReplaceChar(s[1..], from, to)
  }

  /**
   * `qualifiedName.substring(packageName.length() + 1).replace('.', '$')`.
   * `substring` throws when the start lies beyond the end, hence the
   * precondition. Every character after the cut survives, with each '.'
   * turned into '$', so no '.' is left.
   */
  function GetClassName(qualifiedName: string, packageName: string): (r: string)
    requires |packageName| + 1 <= |qualifiedName|
    ensures |r| == |qualifiedName| - |packageName| - 1
    ensures '.' !in r
    ensures forall k :: 0 <= k < |r| ==>
              var c := qualifiedName[|packageName| + 1 + k];
              r[k] == if c == '.' then '$' else c
  {
    ReplaceChar(qualifiedName[|packageName| + 1..], '.', '$')
  }

  /** For a class `Outer.Inner` in package `p`, the name is `Outer$Inner`. */
  lemma NestedClassName(packageName: string, relativeName: string)
    ensures GetClassName(packageName + "." + relativeName, packageName)
            == ReplaceChar(relativeName, '.', '$')
  {
    assert (packageName + "." + relativeName)[|packageName| + 1..] == relativeName;
  }

  /**
   * In the unnamed package the package name is empty, yet one character is
   * still cut: the first letter of the class name is lost.
   */
  lemma UnnamedPackageLosesFirstCharacter()
    ensures GetClassName("Note", "") == "ote"
    ensures GetClassName("Note.Body", "") == "ote$Body"
  {
  }

  /**
   * Turning '$' back into '.' recovers the relative class name, provided the
   * source name held no '$' of its own.
   */
  lemma RestoreNestedName(qualifiedName: string, packageName: string)
    requires |packageName| + 1 <= |qualifiedName|
    requires '$' !in qualifiedName[|packageName| + 1..]
    ensures ReplaceChar(GetClassName(qualifiedName, packageName), '$', '.')
            == qualifiedName[|packageName| + 1..]
  {
    var relative := qualifiedName[|packageName| + 1..];
    var restored := ReplaceChar(GetClassName(qualifiedName, packageName), '$', '.');
    forall k | 0 <= k < |relative|
      ensures restored[k] == relative[k]
    {
      assert relative[k] != '$';
    }
  }
}
