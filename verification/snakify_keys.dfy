/** `snakifyKeys`: renames an options object's camelCase keys to
    snake_case, in place. */
module SnakifyKeys {
  import opened Text
  import opened Js

  predicate NoUpper(s: string) {
    forall i :: 0 <= i < |s| ==> !IsUpper(s[i])
  }

  function CountUpper(s: string): nat
    decreases |s|
  {
    if |s| == 0 then 0 else (if IsUpper(s[0]) then 1 else 0) + CountUpper(s[1..])
  }

  /** `_toSnakeCase`: `str.replace(/[A-Z]/g, c => "_" + c.toLowerCase())`. */
  function ToSnakeCase(s: string): (r: string)
    ensures NoUpper(r)
    ensures |r| == |s| + CountUpper(s)
    decreases |s|
  {
    if |s| == 0 then ""
    else (if IsUpper(s[0]) then ['_', ToLowerChar(s[0])] else [s[0]]) + ToSnakeCase(s[1..])
  }

  /** A string without A-Z is its own snake form. */
  lemma {:induction false} SnakeOfLowerIsIdentity(s: string)
    requires NoUpper(s)
    ensures ToSnakeCase(s) == s
    decreases |s|
  {
    if |s| > 0 {
      SnakeOfLowerIsIdentity(s[1..]);
      assert [s[0]] + s[1..] == s;
    }
  }

  lemma {:induction false} CountUpperZero(s: string)
    ensures CountUpper(s) == 0 <==> NoUpper(s)
    decreases |s|
  {
    if |s| > 0 {
      CountUpperZero(s[1..]);
      assert forall i :: 1 <= i < |s| ==> s[i] == s[1..][i - 1];
    }
  }

  /** A key is renamed exactly when it holds an upper-case letter. */
  lemma SnakeChangesIffUpper(s: string)
    ensures ToSnakeCase(s) != s <==> !NoUpper(s)
  {
    CountUpperZero(s);
    if NoUpper(s) {
      SnakeOfLowerIsIdentity(s);
    }
  }

  /** Snake-casing works character by character, so it distributes over
      concatenation. */
  lemma {:induction false} SnakeOfAppend(a: string, b: string)
    ensures ToSnakeCase(a + b) == ToSnakeCase(a) + ToSnakeCase(b)
    decreases |a|
  {
    if |a| == 0 {
      assert a + b == b;
    } else {
      assert (a + b)[0] == a[0];
      assert (a + b)[1..] == a[1..] + b;
      SnakeOfAppend(a[1..], b);
    }
  }

  lemma SnakeIdempotent(s: string)
    ensures ToSnakeCase(ToSnakeCase(s)) == ToSnakeCase(s)
  {
    SnakeOfLowerIsIdentity(ToSnakeCase(s));
  }

  predicate Renames(k: string) {
    ToSnakeCase(k) != k
  }

  /** One iteration of `snakifyKeys`' loop: a key whose snake form differs
      is read, deleted, and its value written under the snake form. */
  function RenameStep(d: Dict, k: string): Dict {
    if Renames(k) then Put(Remove(d, k), ToSnakeCase(k), Get(d, k)) else d
  }

  /** After one step the snake form holds the renamed value, the renamed key
      is gone, and every other key is untouched. */
  lemma RenameStepLookup(d: Dict, k: string, s: string)
    ensures Lookup(RenameStep(d, k), s) ==
              if Renames(k) && s == ToSnakeCase(k) then Some(Get(d, k))
              else if Renames(k) && s == k then None
              else Lookup(d, s)
  {
    if Renames(k) && s == k {
      assert !HasKey(Remove(d, k), k);
    }
  }

  /** The loop of `snakifyKeys` over a snapshot of the keys. */
  function RenameKeys(d: Dict, keys: seq<string>): Dict
    decreases |keys|
  {
    if |keys| == 0 then d
    else RenameKeys(RenameStep(d, keys[0]), keys[1..])
  }

  /** `snakifyKeys(obj)`, returning the object as it is afterwards. `None`
      is the TypeError of `Object.keys(null)` (`typeof null` is "object");
      values that are not objects are left untouched, and opaque objects
      have no own keys to rename. */
  function SnakifyKeys(v: Value): (r: Option<Value>)
    ensures v.Null? <==> r.None?
    ensures TypeOf(v) != "object" ==> r == Some(v)
    ensures v.Obj? ==> r == Some(Obj(RenameKeys(v.props, Keys(v.props))))
  {
    match v
    case Null => None
    case Obj(props) => Some(Obj(RenameKeys(props, Keys(props))))
    case _ => Some(v)
  }

  /** The last key of `keys` (in loop order) that is renamed onto `s`. */
  function LastRenamedOnto(keys: seq<string>, s: string): (r: Option<string>)
    ensures r.Some? ==> r.value in keys && Renames(r.value) && ToSnakeCase(r.value) == s
    ensures r.None? ==> forall k :: k in keys && Renames(k) ==> ToSnakeCase(k) != s
    decreases |keys|
  {
    if |keys| == 0 then None
    else
      match LastRenamedOnto(keys[1..], s)
      case Some(k) => Some(k)
      case None =>
        if Renames(keys[0]) && ToSnakeCase(keys[0]) == s then Some(keys[0]) else None
  }

  /** Reference meaning of the renaming loop, key by key: a key that some
      camelCase key is renamed onto holds the value of the last such key; a
      renamed key is gone; every other key keeps its entry. */
  function ExpectedLookup(d: Dict, keys: seq<string>, s: string): Option<Value> {
    match LastRenamedOnto(keys, s)
    case Some(k) => Some(Get(d, k))
    case None => if s in keys && Renames(s) then None else Lookup(d, s)
  }

  predicate Distinct(keys: seq<string>) {
    forall i, j :: 0 <= i < j < |keys| ==> keys[i] != keys[j]
  }

  lemma {:induction false} RenameKeysLookup(d: Dict, keys: seq<string>, s: string)
    requires Distinct(keys)
    ensures Lookup(RenameKeys(d, keys), s) == ExpectedLookup(d, keys, s)
    decreases |keys|
  {
    if |keys| > 0 {
      var k := keys[0];
      var next := RenameStep(d, k);
      var tail := keys[1..];
      assert forall i :: 1 <= i < |keys| ==> keys[i] == tail[i - 1];
      assert Distinct(tail);
      assert k !in tail;
      RenameKeysLookup(next, tail, s);
      RenameStepLookup(d, k, s);
      match LastRenamedOnto(tail, s)
      case Some(k1) =>
        SnakeChangesIffUpper(k1);
        RenameStepLookup(d, k, k1);
        assert k1 != ToSnakeCase(k);
      case None =>
        SnakeChangesIffUpper(s);
        if Renames(k) && ToSnakeCase(k) == s {
          assert !Renames(s);
        } else if s == k {
          assert s !in tail;
        } else {
          assert s in keys <==> s in tail;
        }
    }
  }

  /** After `snakifyKeys` no key holds an upper-case letter. */
  lemma SnakifiedKeysAreLower(d: Dict, s: string)
    requires UniqueKeys(d)
    requires !NoUpper(s)
    ensures Lookup(RenameKeys(d, Keys(d)), s) == None
  {
    RenameKeysLookup(d, Keys(d), s);
    SnakeChangesIffUpper(s);
    if s !in Keys(d) {
      assert !HasKey(d, s);
    }
  }

  /** A camelCase key overwrites an existing snake_case key it collides
      with, when no later key is renamed onto the same name. */
  lemma CamelWinsCollision(d: Dict, i: nat)
    requires UniqueKeys(d)
    requires i < |d| && Renames(d[i].key)
    requires forall j :: i < j < |d| && Renames(d[j].key) ==> ToSnakeCase(d[j].key) != ToSnakeCase(d[i].key)
    ensures Lookup(RenameKeys(d, Keys(d)), ToSnakeCase(d[i].key)) == Some(d[i].value)
  {
    var keys := Keys(d);
    var s := ToSnakeCase(d[i].key);
    RenameKeysLookup(d, keys, s);
    LastRenamedIsLast(keys, s, i);
    LookupOfEntry(d, i);
  }

  lemma {:induction false} LastRenamedIsLast(keys: seq<string>, s: string, i: nat)
    requires Distinct(keys)
    requires i < |keys| && Renames(keys[i]) && ToSnakeCase(keys[i]) == s
    requires forall j :: i < j < |keys| && Renames(keys[j]) ==> ToSnakeCase(keys[j]) != s
    ensures LastRenamedOnto(keys, s) == Some(keys[i])
    decreases |keys|
  {
    var tail := keys[1..];
    assert forall j :: 1 <= j < |keys| ==> keys[j] == tail[j - 1];
    if i == 0 {
      assert forall k :: k in tail && Renames(k) ==> ToSnakeCase(k) != s;
      LastRenamedNone(tail, s);
    } else {
      LastRenamedIsLast(tail, s, i - 1);
    }
  }

  lemma {:induction false} LastRenamedNone(keys: seq<string>, s: string)
    requires forall k :: k in keys && Renames(k) ==> ToSnakeCase(k) != s
    ensures LastRenamedOnto(keys, s) == None
    decreases |keys|
  {
    if |keys| > 0 {
      assert forall k :: k in keys[1..] ==> k in keys;
      LastRenamedNone(keys[1..], s);
    }
  }

  /** A key that is already snake_case, and that no other key is renamed
      onto, keeps its value. */
  lemma UntouchedKeyKeepsValue(d: Dict, s: string)
    requires UniqueKeys(d)
    requires NoUpper(s)
    requires forall k :: k in Keys(d) && Renames(k) ==> ToSnakeCase(k) != s
    ensures Lookup(RenameKeys(d, Keys(d)), s) == Lookup(d, s)
  {
    RenameKeysLookup(d, Keys(d), s);
    LastRenamedNone(Keys(d), s);
    SnakeOfLowerIsIdentity(s);
  }
}
