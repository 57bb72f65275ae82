/**
 * The string loop of `gen_name` (models/utils/name_utils.rs): skip the first character of a
 * generated name, then copy everything from the first uppercase character on. The generator
 * itself is not modelled; the name is a parameter.
 */
module NameUtils {
  /** `char::is_uppercase`, restricted to ASCII letters. */
  predicate IsUpper(ch: char) {
    'A' <= ch <= 'Z'
  }

  /** The index of the first uppercase character of s, or |s| when there is none. */
  function FirstUpper(s: string): (k: nat)
    ensures k <= |s|
    ensures k < |s| ==> IsUpper(s[k])
    ensures forall j :: 0 <= j < k ==> !IsUpper(s[j])
  {
    if s == [] then 0
    else if IsUpper(s[0]) then 0
    else 1 + FirstUpper(s[1..])
  }

  /**
   * What the loop keeps of a name: a suffix of the name without its first character that is
   * empty or starts with an uppercase character, with no uppercase character between the first
   * character and where it starts.
   */
  function Trimmed(name: string): (r: string)
    ensures name == [] ==> r == []
    ensures name != [] ==> |r| < |name|
    ensures r == name[|name| - |r|..]
    ensures r == [] || IsUpper(r[0])
    ensures forall j :: 1 <= j < |name| - |r| ==> !IsUpper(name[j])
  {
    if name == [] then []
    else
      var rest := name[1..];
      var k := FirstUpper(rest);
      assert forall j :: 1 <= j < 1 + k ==> name[j] == rest[j - 1];
      rest[k..]
  }

  /**
   * The suffix is determined: for any start k >= 1 that is the first uppercase position after
   * the first character (or the end of the name when there is none), the loop keeps name[k..].
   */
  lemma TrimmedUnique(name: string, k: nat)
    requires 1 <= k <= |name|
    requires k < |name| ==> IsUpper(name[k])
    requires forall j :: 1 <= j < k ==> !IsUpper(name[j])
    ensures Trimmed(name) == name[k..]
  {
    var r := Trimmed(name);
    var start := |name| - |r|;
    assert start < |name| ==> name[start] == r[0];
    assert start == k;
  }

  /** Without an uppercase character after the first, nothing is kept. */
  lemma NoUpperKeepsNothing(name: string)
    requires forall j :: 1 <= j < |name| ==> !IsUpper(name[j])
    ensures Trimmed(name) == []
  {
    if name != [] {
      TrimmedUnique(name, |name|);
    }
  }

  /**
   * The loop of `gen_name`: over the characters after the first, set `adding` at the first
   * uppercase one and push every character from then on.
   */
  method GenName(name: string) returns (result: string)
    ensures result == Trimmed(name)
  {
    result := [];
    if name == [] {
      return;
    }
    var rest := name[1..];
    var adding := false;
    for i := 0 to |rest|
      invariant adding <==> FirstUpper(rest) < i
      invariant result == if adding then rest[FirstUpper(rest)..i] else []
    {
      var ch := rest[i];
      if !adding && IsUpper(ch) {
        adding := true;
      }
      if adding {
        result := result + [ch];
      }
    }
  }
}
