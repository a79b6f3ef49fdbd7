/** `rejectEmptyKeys`: copies an object without its `null`/`undefined`
    entries. Used before encoding a query string and the authorize URL. */
module RejectEmptyKeys {
  import opened Js

  /** The entries whose value is neither `null` nor `undefined`, in their
      original order. */
  function KeepDefined(d: Dict): (r: Dict)
    ensures |r| <= |d|
    ensures forall e :: e in r ==> e in d && !IsNullish(e.value)
    ensures forall e :: e in d && !IsNullish(e.value) ==> e in r
    ensures UniqueKeys(d) ==> UniqueKeys(r)
  {
    if |d| == 0 then []
    else
      var rest := KeepDefined(d[1..]);
      assert forall i :: 1 <= i < |d| ==> d[i] == d[1..][i - 1];
      if IsNullish(d[0].value) then rest
      else
        assert UniqueKeys(d) ==> forall e :: e in rest ==> e.key != d[0].key by {
          if UniqueKeys(d) {
            forall e | e in rest ensures e.key != d[0].key {
              var i :| 0 <= i < |d[1..]| && d[1..][i] == e;
            }
          }
        }
        [d[0]] + rest
  }

  /** Filtering distributes over concatenation, so the kept entries keep
      their relative order. */
  lemma {:induction false} KeepDefinedAppend(a: Dict, b: Dict)
    ensures KeepDefined(a + b) == KeepDefined(a) + KeepDefined(b)
    decreases |a|
  {
    if |a| == 0 {
      assert a + b == b;
    } else {
      assert (a + b)[0] == a[0];
      assert (a + b)[1..] == a[1..] + b;
      KeepDefinedAppend(a[1..], b);
    }
  }

  /** Filtering twice is filtering once. */
  lemma {:induction false} KeepDefinedIdempotent(d: Dict)
    ensures KeepDefined(KeepDefined(d)) == KeepDefined(d)
    decreases |d|
  {
    if |d| > 0 {
      KeepDefinedIdempotent(d[1..]);
      if !IsNullish(d[0].value) {
        assert ([d[0]] + KeepDefined(d[1..]))[1..] == KeepDefined(d[1..]);
      }
    }
  }

  /** A key survives exactly when its value is neither `null` nor
      `undefined`, and then with the same value. */
  lemma {:induction false} KeepDefinedLookup(d: Dict, k: string)
    requires UniqueKeys(d)
    ensures Lookup(KeepDefined(d), k) ==
              if Lookup(d, k).Some? && !IsNullish(Lookup(d, k).value) then Lookup(d, k) else None
    decreases |d|
  {
    if |d| > 0 {
      assert forall i :: 1 <= i < |d| ==> d[i] == d[1..][i - 1];
      KeepDefinedLookup(d[1..], k);
    }
  }

  /** `rejectEmptyKeys` of the current code (`Object.fromEntries` over a
      filter of `Object.entries`): `None` is the TypeError `Object.entries`
      throws on `undefined` and `null`. */
  function RejectEmptyKeys(obj: Value): (r: Option<Dict>)
    ensures r.None? <==> IsNullish(obj)
    ensures obj.Obj? ==> r == Some(KeepDefined(obj.props))
  {
    match OwnEntries(obj)
    case None => None
    case Some(entries) => Some(KeepDefined(entries))
  }

  /** One step of a `for...in` loop: the key, its value, and whether
      `hasOwnProperty` holds for it. */
  datatype Enumerated = Enumerated(key: string, value: Value, own: bool)

  /** The keys `for (k in v)` visits: the own enumerable properties, then
      the enumerable inherited ones that are not shadowed. Nothing for
      `undefined` and `null`. */
  function ForIn(v: Value, inherited: Dict): (items: seq<Enumerated>)
    ensures var own := OwnEntries(v).GetOr([]);
      && |own| <= |items|
      && (forall i :: 0 <= i < |own| ==> items[i] == Enumerated(own[i].key, own[i].value, true))
      && (forall i :: |own| <= i < |items| ==> !items[i].own)
  {
    var own := OwnEntries(v).GetOr([]);
    if IsNullish(v) then []
    else
      seq(|own|, i requires 0 <= i < |own| => Enumerated(own[i].key, own[i].value, true))
      + InheritedVisits(own, inherited)
  }

  function InheritedVisits(own: Dict, inherited: Dict): (items: seq<Enumerated>)
    ensures forall i :: 0 <= i < |items| ==> !items[i].own
  {
    if |inherited| == 0 then []
    else
      var rest := InheritedVisits(own, inherited[1..]);
      if HasKey(own, inherited[0].key) then rest
      else [Enumerated(inherited[0].key, inherited[0].value, false)] + rest
  }

  /** One iteration of the legacy loop over an own key extends the filtered
      prefix by that key when its value is defined. */
  lemma KeepDefinedStep(own: Dict, i: nat)
    requires UniqueKeys(own) && i < |own|
    ensures !IsNullish(own[i].value) ==>
              Put(KeepDefined(own[..i]), own[i].key, own[i].value) == KeepDefined(own[..i + 1])
    ensures IsNullish(own[i].value) ==> KeepDefined(own[..i]) == KeepDefined(own[..i + 1])
  {
    assert own[..i + 1] == own[..i] + [own[i]];
    KeepDefinedAppend(own[..i], [own[i]]);
    var obj := KeepDefined(own[..i]);
    if !IsNullish(own[i].value) {
      assert KeepDefined([own[i]]) == [own[i]];
      assert !HasKey(obj, own[i].key) by {
        forall j | 0 <= j < |obj|
          ensures obj[j].key != own[i].key
        {
          assert obj[j] in own[..i];
          var m :| 0 <= m < i && own[m] == obj[j];
        }
      }
    } else {
      assert KeepDefined([own[i]]) == [];
    }
  }

  /** How far into the own entries a `for...in` loop is after `i` visits. */
  function OwnVisited(i: nat, own: Dict): (n: nat)
    ensures n <= |own| && n <= i
  {
    if i < |own| then i else |own|
  }

  /** One visit of the legacy loop: copying a defined own entry extends the
      filtered prefix by it, and every other visit leaves it as it is. */
  lemma ForInStep(own: Dict, items: seq<Enumerated>, i: nat)
    requires UniqueKeys(own)
    requires |own| <= |items| && i < |items|
    requires forall j :: 0 <= j < |own| ==> items[j] == Enumerated(own[j].key, own[j].value, true)
    requires forall j :: |own| <= j < |items| ==> !items[j].own
    ensures items[i].own && !IsNullish(items[i].value) ==>
              Put(KeepDefined(own[..OwnVisited(i, own)]), items[i].key, items[i].value)
              == KeepDefined(own[..OwnVisited(i + 1, own)])
    ensures !(items[i].own && !IsNullish(items[i].value)) ==>
              KeepDefined(own[..OwnVisited(i, own)]) == KeepDefined(own[..OwnVisited(i + 1, own)])
  {
    if i < |own| {
      assert items[i] == Enumerated(own[i].key, own[i].value, true);
      KeepDefinedStep(own, i);
    } else {
      assert !items[i].own;
    }
  }

  /** `rejectEmptyKeys` of the legacy code: a `for...in` loop copying own
      keys whose value is not `null` and not `undefined` into a fresh
      object. `inherited` lists the enumerable properties the input's
      prototype chain contributes. */
  method RejectEmptyKeysLegacy(original: Value, inherited: Dict) returns (obj: Dict)
    requires WellFormed(original)
    ensures obj == KeepDefined(OwnEntries(original).GetOr([]))
    ensures IsNullish(original) ==> obj == []
    ensures forall e :: e in obj ==> e in OwnEntries(original).GetOr([]) && !IsNullish(e.value)
  {
    var own := OwnEntries(original).GetOr([]);
    if !IsNullish(original) {
      OwnEntriesUnique(original);
    }
    var items := ForIn(original, inherited);
    obj := [];
    var i := 0;
    while i < |items|
      invariant 0 <= i <= |items|
      invariant obj == KeepDefined(own[..OwnVisited(i, own)])
    {
      var item := items[i];
      ForInStep(own, items, i);
      if item.own && item.value != Null && item.value != Undefined {
        obj := Put(obj, item.key, item.value);
      }
      i := i + 1;
    }
    assert own[..|own|] == own;
  }
}
