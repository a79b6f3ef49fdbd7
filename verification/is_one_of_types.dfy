/** `isOneOfTypes`: whether `typeof value` is one of a list of type tags. */
module IsOneOfTypes {
  import opened Js

  /** Reference meaning: some entry of `types` is the string `typeof value`. */
  predicate MatchesOneOf(value: Value, types: seq<Value>) {
    Str(TypeOf(value)) in types
  }

  /** The legacy loop: walks the list's own indices and stops at the first
      tag equal to `typeof value`. */
  method IsOneOfTypes(value: Value, types: seq<Value>) returns (result: bool)
    ensures result <==> MatchesOneOf(value, types)
  {
    result := false;
    var i := 0;
    while i < |types|
      invariant 0 <= i <= |types|
      invariant !result
      invariant forall j :: 0 <= j < i ==> types[j] != Str(TypeOf(value))
    {
      var tag := types[i];
      if tag == Str(TypeOf(value)) {
        result := true;
        break;
      }
      i := i + 1;
    }
  }

  lemma EmptyListMatchesNothing(value: Value)
    ensures !MatchesOneOf(value, [])
  {
  }

  /** The order of the tags does not matter. */
  lemma OrderIndependent(value: Value, a: seq<Value>, b: seq<Value>)
    requires multiset(a) == multiset(b)
    ensures MatchesOneOf(value, a) <==> MatchesOneOf(value, b)
  {
    assert Str(TypeOf(value)) in a <==> Str(TypeOf(value)) in multiset(a);
    assert Str(TypeOf(value)) in b <==> Str(TypeOf(value)) in multiset(b);
  }

  /** Adding tags never turns a match into a mismatch. */
  lemma AppendKeepsMatch(value: Value, a: seq<Value>, more: seq<Value>)
    requires MatchesOneOf(value, a)
    ensures MatchesOneOf(value, a + more)
  {
  }
}
