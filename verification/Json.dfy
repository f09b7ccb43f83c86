/**
 JavaScript values and their JSON form: `toInputJsonValue`
 (backend/src/modules/compensation/payment-rule-config.ts) with `stringifyUnknown`
 (backend/src/common/utils/stringify-unknown.ts).
 */
module Json {
  datatype Entry = Entry(key: string, value: Js)

  /** `Callable` stands for functions and symbols; an object lists its own entries in their order. */
  datatype Js =
    | Undefined
    | Null
    | Bool(flag: bool)
    | Num(number: real)
    | Str(text: string)
    | Date(iso: string)
    | BigInt(digits: string)
    | Callable
    | Arr(items: seq<Js>)
    | Obj(entries: seq<Entry>)

  /** Assigning to this key sets the prototype instead of an entry. */
  const PROTOTYPE := "__proto__"

  /** `isPlainObject`: a date passes for an object. */
  predicate IsPlainObject(v: Js) {
    v.Obj? || v.Date?
  }

  function Lookup(entries: seq<Entry>, key: string): Js {
    if entries == [] then Undefined
    else if entries[|entries| - 1].key == key then entries[|entries| - 1].value
    else Lookup(entries[..|entries| - 1], key)
  }

  /** `value?.[key]`. */
  function Field(v: Js, key: string): Js {
    if v.Obj? then Lookup(v.entries, key) else Undefined
  }

  /** What `toInputJsonValue` makes of a value. */
  function Normalize(v: Js): Js
    decreases v, 1, 0
  {
    match v
    case Undefined => Str("")
    case Date(iso) => Str(iso)
    case BigInt(digits) => Str(digits)
    case Callable => Undefined
    case Arr(items) => Arr(NormalizeItems(v, |items|))
    case Obj(entries) => Obj(NormalizeEntries(v, |entries|))
    case _ => v
  }

  function NormalizeItems(v: Js, n: nat): (r: seq<Js>)
    requires v.Arr? && n <= |v.items|
    ensures |r| == n
    decreases v, 0, n
  {
    if n == 0 then [] else NormalizeItems(v, n - 1) + [Normalize(v.items[n - 1])]
  }

  predicate Kept(e: Entry) {
    e.value != Undefined && e.key != PROTOTYPE
  }

  function NormalizeEntries(v: Js, n: nat): (r: seq<Entry>)
    requires v.Obj? && n <= |v.entries|
    ensures |r| <= n
    decreases v, 0, n
  {
    if n == 0 then []
    else
      var rest := NormalizeEntries(v, n - 1);
      var e := v.entries[n - 1];
      if Kept(e) then rest + [Entry(e.key, Normalize(e.value))] else rest
  }

  /** The source's form of `Normalize`: a map over arrays, and an object filled in a loop. */
  method ToInputJsonValue(v: Js) returns (r: Js)
    ensures r == Normalize(v)
    decreases v
  {
    match v
    case Undefined => r := Str("");
    case Date(iso) => r := Str(iso);
    case BigInt(digits) => r := Str(digits);
    case Callable => r := Undefined;
    case Arr(items) =>
      var mapped := [];
      for i := 0 to |items|
        invariant mapped == NormalizeItems(v, i)
      {
        var item := ToInputJsonValue(items[i]);
        mapped := mapped + [item];
      }
      r := Arr(mapped);
    case Obj(entries) =>
      var inputObject := [];
      for i := 0 to |entries|
        invariant inputObject == NormalizeEntries(v, i)
      {
        if entries[i].value == Undefined {
          continue;
        }
        var entry := ToInputJsonValue(entries[i].value);
        if entries[i].key != PROTOTYPE {
          inputObject := inputObject + [Entry(entries[i].key, entry)];
        }
      }
      r := Obj(inputObject);
    case _ => r := v;
  }

  // ---- JSON ---------------------------------------------------------------------------------------------------

  /** The values JSON can hold. */
  predicate IsJson(v: Js) {
    match v
    case Arr(items) => forall i :: 0 <= i < |items| ==> IsJson(items[i])
    case Obj(entries) => forall i :: 0 <= i < |entries| ==> entries[i].key != PROTOTYPE && IsJson(entries[i].value)
    case _ => v.Null? || v.Bool? || v.Num? || v.Str?
  }

  /** No function or symbol is found on the way down. */
  predicate CallableFree(v: Js) {
    match v
    case Callable => false
    case Arr(items) => forall i :: 0 <= i < |items| ==> CallableFree(items[i])
    case Obj(entries) =>
      forall i :: 0 <= i < |entries| ==> entries[i].key == PROTOTYPE || CallableFree(entries[i].value)
    case _ => true
  }

  lemma {:induction false} NormalizeItemsAt(v: Js, n: nat, i: nat)
    requires v.Arr? && i < n <= |v.items|
    ensures NormalizeItems(v, n)[i] == Normalize(v.items[i])
    decreases n
  {
    if i < n - 1 {
      NormalizeItemsAt(v, n - 1, i);
    }
  }

  /** An entry of the result and the kept entry it comes from. */
  ghost predicate ComesFrom(v: Js, i: nat, e: Entry)
    requires v.Obj?
  {
    i < |v.entries| && Kept(v.entries[i]) && e == Entry(v.entries[i].key, Normalize(v.entries[i].value))
  }

  /** Every entry of the result comes from a kept one. */
  lemma {:induction false} Origin(v: Js, n: nat, j: nat) returns (i: nat)
    requires v.Obj? && n <= |v.entries| && j < |NormalizeEntries(v, n)|
    ensures i < n && ComesFrom(v, i, NormalizeEntries(v, n)[j])
    decreases n
  {
    if j < |NormalizeEntries(v, n - 1)| {
      i := Origin(v, n - 1, j);
    } else {
      i := n - 1;
    }
  }

  /** Every kept entry has its place in the result. */
  lemma {:induction false} Place(v: Js, n: nat, i: nat) returns (j: nat)
    requires v.Obj? && i < n <= |v.entries| && Kept(v.entries[i])
    ensures j < |NormalizeEntries(v, n)| && ComesFrom(v, i, NormalizeEntries(v, n)[j])
    decreases n
  {
    if i < n - 1 {
      j := Place(v, n - 1, i);
    } else {
      j := |NormalizeEntries(v, n - 1)|;
    }
  }

  /** The result is JSON exactly if nothing on the way down is a function or a symbol. */
  lemma {:induction false} NormalizedIsJson(v: Js)
    ensures IsJson(Normalize(v)) <==> CallableFree(v)
    decreases v
  {
    match v
    case Arr(items) =>
      forall i | 0 <= i < |items|
        ensures IsJson(NormalizeItems(v, |items|)[i]) <==> CallableFree(items[i])
      {
        NormalizeItemsAt(v, |items|, i);
        NormalizedIsJson(items[i]);
      }
    case Obj(entries) =>
      NormalizedEntriesAreJson(v);
    case _ =>
  }

  lemma {:induction false} NormalizedEntriesAreJson(v: Js)
    requires v.Obj?
    ensures IsJson(Normalize(v)) <==> CallableFree(v)
    decreases v, 0
  {
    var r := NormalizeEntries(v, |v.entries|);
    forall i | 0 <= i < |v.entries|
      ensures IsJson(Normalize(v.entries[i].value)) <==> CallableFree(v.entries[i].value)
    {
      NormalizedIsJson(v.entries[i].value);
    }
    if CallableFree(v) {
      forall j | 0 <= j < |r|
        ensures r[j].key != PROTOTYPE && IsJson(r[j].value)
      {
        var i := Origin(v, |v.entries|, j);
      }
    } else {
      var i :| 0 <= i < |v.entries| && v.entries[i].key != PROTOTYPE && !CallableFree(v.entries[i].value);
      var j := Place(v, |v.entries|, i);
      assert !IsJson(r[j].value);
    }
  }

  lemma {:induction false} AllKeptIfAsLong(v: Js, n: nat)
    requires v.Obj? && n <= |v.entries|
    ensures
      |NormalizeEntries(v, n)| == n ==>
        forall i :: 0 <= i < n ==>
          && Kept(v.entries[i])
          && NormalizeEntries(v, n)[i] == Entry(v.entries[i].key, Normalize(v.entries[i].value))
    decreases n
  {
    if n > 0 {
      AllKeptIfAsLong(v, n - 1);
    }
  }

  lemma {:induction false} AsLongIfAllKept(v: Js, n: nat)
    requires v.Obj? && n <= |v.entries|
    requires forall i :: 0 <= i < n ==> Kept(v.entries[i])
    ensures |NormalizeEntries(v, n)| == n
    decreases n
  {
    if n > 0 {
      AsLongIfAllKept(v, n - 1);
    }
  }

  /** The values left as they are are exactly the JSON values. */
  lemma {:induction false} JsonIsFixed(v: Js)
    ensures Normalize(v) == v <==> IsJson(v)
    decreases v
  {
    match v
    case Arr(items) =>
      forall i | 0 <= i < |items|
        ensures NormalizeItems(v, |items|)[i] == items[i] <==> IsJson(items[i])
      {
        NormalizeItemsAt(v, |items|, i);
        JsonIsFixed(items[i]);
      }
    case Obj(entries) =>
      forall i | 0 <= i < |entries|
        ensures Normalize(entries[i].value) == entries[i].value <==> IsJson(entries[i].value)
      {
        JsonIsFixed(entries[i].value);
      }
      AllKeptIfAsLong(v, |entries|);
      if IsJson(v) {
        AsLongIfAllKept(v, |entries|);
      }
    case _ =>
  }

  /** Normalising twice is normalising once, exactly if nothing on the way down is a function or a symbol. */
  lemma NormalizeIdempotent(v: Js)
    ensures Normalize(Normalize(v)) == Normalize(v) <==> CallableFree(v)
  {
    NormalizedIsJson(v);
    JsonIsFixed(Normalize(v));
  }

  /** Dates become their ISO text, large integers their digits, and undefined the empty text; items stay in place. */
  lemma NormalizeByKind(v: Js)
    ensures
      match v
      case Date(iso) => Normalize(v) == Str(iso)
      case BigInt(digits) => Normalize(v) == Str(digits)
      case Undefined => Normalize(v) == Str("")
      case Callable => Normalize(v) == Undefined
      case Arr(items) =>
        && Normalize(v).Arr? && |Normalize(v).items| == |items|
        && forall i :: 0 <= i < |items| ==> Normalize(v).items[i] == Normalize(items[i])
      case Obj(_) => Normalize(v).Obj?
      case _ => Normalize(v) == v
  {
    if v.Arr? {
      forall i | 0 <= i < |v.items|
        ensures NormalizeItems(v, |v.items|)[i] == Normalize(v.items[i])
      {
        NormalizeItemsAt(v, |v.items|, i);
      }
    }
  }

  // ---- Reading an entry ---------------------------------------------------------------------------------------

  ghost predicate DistinctKeys(entries: seq<Entry>) {
    forall i, j :: 0 <= i < j < |entries| ==> entries[i].key != entries[j].key
  }

  /** An object as JavaScript has it: no key occurs twice. */
  ghost predicate IsJs(v: Js) {
    v.Obj? ==> DistinctKeys(v.entries)
  }

  lemma {:induction false} LookupAt(entries: seq<Entry>, i: nat)
    requires DistinctKeys(entries) && i < |entries|
    ensures Lookup(entries, entries[i].key) == entries[i].value
    decreases |entries|
  {
    if i < |entries| - 1 {
      LookupAt(entries[..|entries| - 1], i);
    }
  }

  lemma {:induction false} NormalizeKeepsKeysDistinct(v: Js, n: nat)
    requires v.Obj? && n <= |v.entries| && DistinctKeys(v.entries)
    ensures DistinctKeys(NormalizeEntries(v, n))
    decreases n
  {
    if n > 0 {
      NormalizeKeepsKeysDistinct(v, n - 1);
      var rest := NormalizeEntries(v, n - 1);
      forall j | 0 <= j < |rest|
        ensures rest[j].key != v.entries[n - 1].key
      {
        var i := Origin(v, n - 1, j);
      }
    }
  }

  lemma {:induction false} LookupAbsent(entries: seq<Entry>, key: string)
    requires forall i :: 0 <= i < |entries| ==> entries[i].key != key
    ensures Lookup(entries, key) == Undefined
    decreases |entries|
  {
    if entries != [] {
      LookupAbsent(entries[..|entries| - 1], key);
    }
  }

  lemma LookupAppend(entries: seq<Entry>, e: Entry, key: string)
    ensures Lookup(entries + [e], key) == if e.key == key then e.value else Lookup(entries, key)
  {
    assert (entries + [e])[..|entries|] == entries;
  }

  lemma {:induction false} LookupNormalized(v: Js, n: nat, key: string)
    requires v.Obj? && n <= |v.entries| && DistinctKeys(v.entries) && key != PROTOTYPE
    ensures
      var raw := Lookup(v.entries[..n], key);
      Lookup(NormalizeEntries(v, n), key) == if raw == Undefined then Undefined else Normalize(raw)
    decreases n
  {
    hide Lookup, Normalize;
    if n == 0 {
      LookupAbsent([], key);
    } else {
      LookupNormalized(v, n - 1, key);
      var e := v.entries[n - 1];
      LookupAppend(v.entries[..n - 1], e, key);
      assert v.entries[..n] == v.entries[..n - 1] + [e];
      if Kept(e) {
        LookupAppend(NormalizeEntries(v, n - 1), Entry(e.key, Normalize(e.value)), key);
      } else if e.key == key {
        LookupAbsent(v.entries[..n - 1], key);
      }
    }
  }

  /** An entry of a normalised object is the normalised entry. */
  lemma FieldOfNormalized(v: Js, key: string)
    requires v.Obj? && DistinctKeys(v.entries) && key != PROTOTYPE
    ensures
      var raw := Field(v, key);
      Field(Normalize(v), key) == if raw == Undefined then Undefined else Normalize(raw)
  {
    LookupNormalized(v, |v.entries|, key);
    assert v.entries[..|v.entries|] == v.entries;
  }
}
