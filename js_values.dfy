/**
 * The JavaScript values a logic definition is written with, and the object
 * operations the normaliser needs: property lookup, truthiness and the list of
 * keys that are not recognised.
 */
module JsValues {
  import opened Wrappers
  import Actions

  /**
   * A JavaScript value. A function value carries its display string (what its
   * `toString()` returns) and what it does when the middleware calls it in the
   * validate/transform position and in the process position. A regular
   * expression carries its source text and the predicate its `test` computes.
   */
  datatype RawValue =
    | Undefined
    | Boolean(b: bool)
    | Number(n: int)
    | Str(s: string)
    | Regex(source: string, test: string -> bool)
    | Fn(display: string,
         asHook: Actions.Action -> Actions.Verdict,
         asProcess: Actions.Action -> seq<Actions.Action>)
    | Arr(items: seq<RawValue>)
    | Obj(entries: seq<Entry>)

  /** One own property of an object, in the order the object was written. */
  datatype Entry = Entry(key: string, value: RawValue)

  /** JavaScript truthiness (numbers are integers here, so there is no NaN). */
  predicate Truthy(v: RawValue) {
    match v
    case Undefined => false
    case Boolean(b) => b
    case Number(n) => n != 0
    case Str(s) => s != ""
    case _ => true
  }

  /** The object has an own property named `k`. */
  predicate HasKey(o: seq<Entry>, k: string) {
    exists j :: 0 <= j < |o| && o[j].key == k
  }

  /** The value of property `k`: the last entry written with that key wins, as in an object literal. */
  function Lookup(o: seq<Entry>, k: string): (r: Option<RawValue>)
    ensures r.Some? <==> HasKey(o, k)
    ensures r.Some? ==> exists j :: 0 <= j < |o| && o[j] == Entry(k, r.value) &&
                                   forall j' :: j < j' < |o| ==> o[j'].key != k
  {
    if o == [] then None
    else if o[|o| - 1].key == k then Some(o[|o| - 1].value)
    else
      var r := Lookup(o[..|o| - 1], k);
      assert forall j :: 0 <= j < |o| - 1 ==> o[..|o| - 1][j] == o[j];
      r
  }

  /** The entry a lookup finds is the last one written with the key. */
  lemma LookupLast(o: seq<Entry>, j: nat, k: string)
    requires j < |o| && o[j].key == k
    requires forall j' :: j < j' < |o| ==> o[j'].key != k
    ensures Lookup(o, k) == Some(o[j].value)
  {
    var r := Lookup(o, k);
    var i :| 0 <= i < |o| && o[i] == Entry(k, r.value) && forall j' :: i < j' < |o| ==> o[j'].key != k;
    assert i == j;
  }

  /** Reading a property: a missing one reads as `undefined`. */
  function Field(o: seq<Entry>, k: string): RawValue {
    Lookup(o, k).GetOr(Undefined)
  }

  /** The property is present with a truthy value. */
  predicate Given(o: seq<Entry>, k: string) {
    Truthy(Field(o, k))
  }

  /** The own properties of a value: those of an object, none for any other value. */
  function EntriesOf(v: RawValue): seq<Entry> {
    if v.Obj? then v.entries else []
  }

  /** The keys of `o` that are not in `allowed`, in the order they were written. */
  function UnknownKeys(o: seq<Entry>, allowed: set<string>): (r: seq<string>)
    ensures forall k :: k in r <==> k !in allowed && HasKey(o, k)
    ensures |r| <= |o|
  {
    if o == [] then []
    else
      var front := o[..|o| - 1];
      var last := o[|o| - 1];
      var r := UnknownKeys(front, allowed) + (if last.key in allowed then [] else [last.key]);
      assert forall j :: 0 <= j < |o| - 1 ==> front[j] == o[j];
      r
  }

  /** Every key of `o` is in `allowed`. */
  predicate OnlyKeys(o: seq<Entry>, allowed: set<string>) {
    forall j :: 0 <= j < |o| ==> o[j].key in allowed
  }

  /** No unknown key is reported exactly when every key is allowed. */
  lemma {:induction false} NoUnknownKeys(o: seq<Entry>, allowed: set<string>)
    ensures UnknownKeys(o, allowed) == [] <==> OnlyKeys(o, allowed)
  {
    var r := UnknownKeys(o, allowed);
    if r != [] {
      assert r[0] in r;
    }
    if !OnlyKeys(o, allowed) {
      var j :| 0 <= j < |o| && o[j].key !in allowed;
      assert o[j].key in r;
    }
  }
}
