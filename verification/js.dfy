/** The slice of JavaScript's value model the SDK's core depends on: the
    primitive kinds, `typeof`, truthiness, `||`, property reads, and plain
    objects as insertion-ordered key/value lists with `Object.assign`
    semantics. */
module Js {
  import opened Text

  datatype Option<+T> = None | Some(value: T) {
    function GetOr(default: T): T {
      match this
      case Some(v) => v
      case None => default
    }
  }

  /** A JavaScript value. Numbers are integers (no fractions, no NaN);
      `Obj` is a plain object listing its own enumerable properties in
      enumeration order; `Ref` is an opaque object (a promise, a class
      instance, a stream) and `Fn` a function, both identified by a
      number. */
  datatype Value =
    | Undefined
    | Null
    | Bool(b: bool)
    | Num(n: int)
    | Str(s: string)
    | Obj(props: seq<Entry>)
    | Ref(id: nat)
    | Fn(id: nat)

  datatype Entry = Entry(key: string, value: Value)

  /** A plain object's own enumerable properties, in order. */
  type Dict = seq<Entry>

  predicate IsNullish(v: Value) {
    v.Undefined? || v.Null?
  }

  /** `typeof v`. */
  function TypeOf(v: Value): string {
    match v
    case Undefined => "undefined"
    case Null => "object"
    case Bool(_) => "boolean"
    case Num(_) => "number"
    case Str(_) => "string"
    case Obj(_) => "object"
    case Ref(_) => "object"
    case Fn(_) => "function"
  }

  /** JavaScript truthiness (`if (v)`, `!v`). */
  predicate Truthy(v: Value) {
    match v
    case Undefined => false
    case Null => false
    case Bool(b) => b
    case Num(n) => n != 0
    case Str(s) => s != ""
    case _ => true
  }

  /** `a || b`: the left operand when it is truthy, else the right one. */
  function Or(a: Value, b: Value): (r: Value)
    ensures r == a || r == b
    ensures Truthy(a) ==> r == a
    ensures !Truthy(a) ==> r == b
  {
    if Truthy(a) then a else b
  }

  /** `String(v)` as used for a computed property key. A function's source
      text is not modelled. */
  function ToKeyString(v: Value): string {
    match v
    case Undefined => "undefined"
    case Null => "null"
    case Bool(b) => if b then "true" else "false"
    case Num(n) => IntToString(n)
    case Str(s) => s
    case Obj(_) => "[object Object]"
    case Ref(_) => "[object Object]"
    case Fn(_) => "function"
  }

  /** How `Array.prototype.join` renders one element: `undefined` and `null`
      become the empty string. */
  function JoinPart(v: Value): string {
    if IsNullish(v) then "" else ToKeyString(v)
  }

  function Keys(d: Dict): (ks: seq<string>)
    ensures |ks| == |d|
    ensures forall i :: 0 <= i < |d| ==> ks[i] == d[i].key
  {
    seq(|d|, i requires 0 <= i < |d| => d[i].key)
  }

  /** The representation invariant of a JavaScript object: no key twice. */
  predicate UniqueKeys(d: Dict) {
    forall i, j :: 0 <= i < j < |d| ==> d[i].key != d[j].key
  }

  predicate HasKey(d: Dict, k: string) {
    exists i :: 0 <= i < |d| && d[i].key == k
  }

  /** The entry stored under `k`, if any. */
  function Lookup(d: Dict, k: string): (r: Option<Value>)
    ensures r.Some? <==> HasKey(d, k)
    ensures r.Some? ==> Entry(k, r.value) in d
  {
    if |d| == 0 then None
    else if d[0].key == k then Some(d[0].value)
    else
      var r := Lookup(d[1..], k);
      assert forall i :: 1 <= i < |d| ==> d[i] == d[1..][i - 1];
      r
  }

  /** A property read `o[k]`: `undefined` when the key is absent. */
  function Get(d: Dict, k: string): Value {
    Lookup(d, k).GetOr(Undefined)
  }

  /** With unique keys, an entry of `d` is what `Lookup` finds. */
  lemma {:induction false} LookupOfEntry(d: Dict, i: nat)
    requires UniqueKeys(d)
    requires i < |d|
    ensures Lookup(d, d[i].key) == Some(d[i].value)
  {
    if i > 0 {
      LookupOfEntry(d[1..], i - 1);
    }
  }

  lemma KeysCons(e: Entry, d: Dict)
    ensures Keys([e] + d) == [e.key] + Keys(d)
  {
    var l, r := Keys([e] + d), [e.key] + Keys(d);
    assert |l| == |r|;
    forall i | 0 <= i < |l|
      ensures l[i] == r[i]
    {
      if i > 0 {
        assert ([e] + d)[i] == d[i - 1];
      }
    }
  }

  lemma UniqueCons(e: Entry, d: Dict)
    requires UniqueKeys(d)
    requires forall i :: 0 <= i < |d| ==> d[i].key != e.key
    ensures UniqueKeys([e] + d)
  {
    var r := [e] + d;
    forall i, j | 0 <= i < j < |r|
      ensures r[i].key != r[j].key
    {
      assert r[j] == d[j - 1];
      if i > 0 {
        assert r[i] == d[i - 1];
      }
    }
  }

  /** The assignment itself: the first entry under `k` is overwritten in
      place; without one, the entry is appended. */
  function PutEntry(d: Dict, k: string, v: Value): Dict
    decreases |d|
  {
    if |d| == 0 then [Entry(k, v)]
    else if d[0].key == k then [Entry(k, v)] + d[1..]
    else [d[0]] + PutEntry(d[1..], k, v)
  }

  lemma HasKeyCons(d: Dict, k: string)
    requires |d| > 0
    ensures HasKey(d, k) <==> d[0].key == k || HasKey(d[1..], k)
  {
    if HasKey(d[1..], k) {
      var i :| 0 <= i < |d[1..]| && d[1..][i].key == k;
      assert d[i + 1].key == k;
    }
    if HasKey(d, k) && d[0].key != k {
      var i :| 0 <= i < |d| && d[i].key == k;
      assert d[1..][i - 1].key == k;
    }
  }

  lemma {:induction false} PutEntryKeys(d: Dict, k: string, v: Value)
    ensures HasKey(d, k) ==> Keys(PutEntry(d, k, v)) == Keys(d)
    ensures !HasKey(d, k) ==> PutEntry(d, k, v) == d + [Entry(k, v)]
    decreases |d|
  {
    if |d| > 0 {
      var tail := d[1..];
      HasKeyCons(d, k);
      if d[0].key == k {
        KeysCons(d[0], tail);
        KeysCons(Entry(k, v), tail);
        assert d == [d[0]] + tail;
      } else {
        PutEntryKeys(tail, k, v);
        KeysCons(d[0], PutEntry(tail, k, v));
        KeysCons(d[0], tail);
        assert d == [d[0]] + tail;
      }
    }
  }

  lemma {:induction false} PutEntryUnique(d: Dict, k: string, v: Value)
    ensures UniqueKeys(d) ==> UniqueKeys(PutEntry(d, k, v))
    decreases |d|
  {
    if |d| > 0 && UniqueKeys(d) {
      var tail := d[1..];
      assert forall i :: 1 <= i < |d| ==> d[i] == tail[i - 1];
      assert UniqueKeys(tail);
      if d[0].key == k {
        UniqueCons(Entry(k, v), tail);
      } else {
        var rest := PutEntry(tail, k, v);
        PutEntryUnique(tail, k, v);
        PutEntryKeys(tail, k, v);
        forall i | 0 <= i < |rest|
          ensures rest[i].key != d[0].key
        {
          if HasKey(tail, k) {
            assert Keys(rest)[i] == Keys(tail)[i];
          } else if i < |tail| {
            assert rest[i] == tail[i];
          }
        }
        UniqueCons(d[0], rest);
      }
    }
  }

  lemma {:induction false} PutEntryLookup(d: Dict, k: string, v: Value, k': string)
    ensures Lookup(PutEntry(d, k, v), k') == if k' == k then Some(v) else Lookup(d, k')
    decreases |d|
  {
    if |d| > 0 && d[0].key != k {
      PutEntryLookup(d[1..], k, v, k');
      assert ([d[0]] + PutEntry(d[1..], k, v))[1..] == PutEntry(d[1..], k, v);
    } else if |d| > 0 {
      assert ([Entry(k, v)] + d[1..])[1..] == d[1..];
    }
  }

  lemma PutEntryLookups(d: Dict, k: string, v: Value)
    ensures forall k' :: Lookup(PutEntry(d, k, v), k') == if k' == k then Some(v) else Lookup(d, k')
  {
    forall k' ensures Lookup(PutEntry(d, k, v), k') == if k' == k then Some(v) else Lookup(d, k') {
      PutEntryLookup(d, k, v, k');
    }
  }

  /** An assignment `o[k] = v`: an existing key keeps its position, a new
      key is appended, and the object invariant is kept. */
  function Put(d: Dict, k: string, v: Value): (r: Dict)
    ensures HasKey(d, k) ==> Keys(r) == Keys(d)
    ensures !HasKey(d, k) ==> r == d + [Entry(k, v)]
    ensures UniqueKeys(d) ==> UniqueKeys(r)
    ensures forall k' :: Lookup(r, k') == if k' == k then Some(v) else Lookup(d, k')
  {
    PutEntryKeys(d, k, v);
    PutEntryUnique(d, k, v);
    PutEntryLookups(d, k, v);
    PutEntry(d, k, v)
  }

  /** `delete o[k]`. */
  function Remove(d: Dict, k: string): (r: Dict)
    ensures !HasKey(r, k)
    ensures UniqueKeys(d) ==> UniqueKeys(r)
    ensures forall k' :: k' != k ==> Lookup(r, k') == Lookup(d, k')
    ensures forall e :: e in r ==> e in d
  {
    if |d| == 0 then []
    else
      var rest := Remove(d[1..], k);
      assert forall i :: 1 <= i < |d| ==> d[i] == d[1..][i - 1];
      if d[0].key == k then rest
      else
        assert UniqueKeys(d) ==> forall e :: e in rest ==> e.key != d[0].key by {
          if UniqueKeys(d) {
            forall e | e in rest ensures e.key != d[0].key {
              var i :| 0 <= i < |d[1..]| && d[1..][i] == e;
            }
          }
        }
        [d[0]] + rest
  }

  /** `Object.assign(target, source)` (also `{...target, ...source}`): the
      source's properties are written into the target one by one. */
  function Assign(target: Dict, source: Dict): Dict
    decreases |source|
  {
    if |source| == 0 then target
    else Assign(Put(target, source[0].key, source[0].value), source[1..])
  }

  /** The source wins every key it has; every other key keeps the target's
      entry. */
  lemma {:induction false} AssignLookup(target: Dict, source: Dict, k: string)
    requires UniqueKeys(source)
    ensures Lookup(Assign(target, source), k) ==
              if HasKey(source, k) then Lookup(source, k) else Lookup(target, k)
    decreases |source|
  {
    if |source| > 0 {
      var rest := source[1..];
      assert forall i :: 1 <= i < |source| ==> source[i] == rest[i - 1];
      AssignLookup(Put(target, source[0].key, source[0].value), rest, k);
      if k == source[0].key {
        assert !HasKey(rest, k);
      }
    }
  }

  /** The target's keys keep their positions at the front; new keys follow. */
  lemma {:induction false} AssignKeepsTargetKeysFirst(target: Dict, source: Dict)
    ensures |Assign(target, source)| >= |target|
    ensures Keys(Assign(target, source))[..|target|] == Keys(target)
    ensures UniqueKeys(target) ==> UniqueKeys(Assign(target, source))
    decreases |source|
  {
    if |source| > 0 {
      var t := Put(target, source[0].key, source[0].value);
      AssignKeepsTargetKeysFirst(t, source[1..]);
      assert Keys(t)[..|target|] == Keys(target);
    }
  }

  /** `Object.entries(v)` / `Object.keys(v)`: `None` stands for the TypeError
      thrown on `undefined` and `null`; a string enumerates its characters
      under their index keys; other primitives, functions and opaque objects
      have no enumerable own properties. */
  function OwnEntries(v: Value): (r: Option<Dict>)
    ensures r.None? <==> IsNullish(v)
    ensures v.Obj? ==> r == Some(v.props)
  {
    match v
    case Undefined => None
    case Null => None
    case Obj(props) => Some(props)
    case Str(s) => Some(seq(|s|, i requires 0 <= i < |s| => Entry(NatToString(i), Str([s[i]]))))
    case _ => Some([])
  }

  /** The object invariant holds for an object value's own properties. */
  predicate WellFormed(v: Value) {
    v.Obj? ==> UniqueKeys(v.props)
  }

  lemma OwnEntriesUnique(v: Value)
    requires WellFormed(v) && !IsNullish(v)
    ensures UniqueKeys(OwnEntries(v).value)
  {
    if v.Str? {
      var d := OwnEntries(v).value;
      forall i, j | 0 <= i < j < |d|
        ensures d[i].key != d[j].key
      {
        if d[i].key == d[j].key {
          NatToStringInjective(i, j);
        }
      }
    }
  }

  /** A property read `v[k]` on any value: `None` is the TypeError thrown on
      `undefined` and `null`. Built-in properties of primitives (such as a
      string's `length`) are not modelled; the keys read by the SDK are
      never such names. */
  function Prop(v: Value, k: string): (r: Option<Value>)
    ensures r.None? <==> IsNullish(v)
    ensures v.Obj? ==> r == Some(Get(v.props, k))
  {
    match v
    case Undefined => None
    case Null => None
    case Obj(props) => Some(Get(props, k))
    case _ => Some(Undefined)
  }
}
