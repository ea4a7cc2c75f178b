/**
 * JavaScript values as the harness's records hold them, with the three operators the
 * builders lean on: truthiness (`||`, `if (x)`), nullish coalescing (`??`) and object
 * spread / `Object.assign` (later layers win).
 */
module Values {

  /** A local calendar instant: a day number and the milliseconds into that day. */
  datatype Timestamp = Timestamp(day: int, millis: nat)

  /**
   * A JSON-like value. `Undefined` is kept apart from a missing key because a spread
   * copies a key whose value is `undefined`. Numbers are integers; a date is carried as
   * the instant its ISO string denotes.
   */
  datatype Value =
    | Undefined
    | Null
    | Bool(b: bool)
    | Num(n: int)
    | Str(s: string)
    | List(items: seq<Value>)
    | Obj(fields: map<string, Value>)
    | Date(at: Timestamp)

  /** The process environment: a variable that is unset has no key. */
  type Env = map<string, string>

  /** JavaScript truthiness. */
  predicate Truthy(v: Value) {
    match v
    case Undefined => false
    case Null => false
    case Bool(b) => b
    case Num(n) => n != 0
    case Str(s) => s != ""
    case _ => true
  }

  predicate Nullish(v: Value) { v.Undefined? || v.Null? }

  /** `v ?? d` */
  function Coalesce(v: Value, d: Value): (r: Value)
    ensures Nullish(v) ==> r == d
    ensures !Nullish(v) ==> r == v
  {
    if Nullish(v) then d else v
  }

  /** `v || d` */
  function Or(v: Value, d: Value): (r: Value)
    ensures Truthy(v) ==> r == v
    ensures !Truthy(v) ==> r == d
  {
    if Truthy(v) then v else d
  }

  /** Property access: a missing key reads as `undefined`. */
  function Get<K>(m: map<K, Value>, k: K): (v: Value)
    ensures k !in m ==> v == Undefined
    ensures k in m ==> v == m[k]
  {
    if k in m then m[k] else Undefined
  }

  /** `env.X`, where an unset variable reads as `undefined`. */
  function EnvGet(env: Env, name: string): Value {
    if name in env then Str(env[name]) else Undefined
  }

  /**
   * `Object.assign({}, ...layers)`, equally `{...layers[0], ...layers[1], ...}`: the keys
   * are those of all layers (AssignPicksLatest says which value each key takes).
   */
  function Assign<K(!new), V>(layers: seq<map<K, V>>): (r: map<K, V>)
    ensures forall k :: k in r <==> exists i :: 0 <= i < |layers| && k in layers[i]
    decreases |layers|
  {
    if layers == [] then map[] else Assign(layers[..|layers| - 1]) + layers[|layers| - 1]
  }

  /** Each key takes its value from the LAST layer that has it. */
  lemma {:induction false} AssignPicksLatest<K(!new), V>(layers: seq<map<K, V>>, i: nat, k: K)
    requires i < |layers| && k in layers[i]
    requires forall j :: i < j < |layers| ==> k !in layers[j]
    ensures k in Assign(layers) && Assign(layers)[k] == layers[i][k]
    decreases |layers|
  {
    if i < |layers| - 1 {
      AssignPicksLatest(layers[..|layers| - 1], i, k);
    }
  }

  /** Two layers: the right-hand map wins. */
  lemma AssignPair<K(!new), V>(a: map<K, V>, b: map<K, V>)
    ensures Assign([a, b]) == a + b
  {
    assert [a, b][..1] == [a];
    assert [a][..0] == [];
  }

  /** Merging a concatenation is merging the two merges: `assign(a ++ b) == assign(a) + assign(b)`. */
  lemma {:induction false} AssignConcat<K(!new), V>(a: seq<map<K, V>>, b: seq<map<K, V>>)
    ensures Assign(a + b) == Assign(a) + Assign(b)
    decreases |b|
  {
    if b == [] {
      assert a + b == a;
    } else {
      var b', last := b[..|b| - 1], b[|b| - 1];
      assert (a + b)[..|a + b| - 1] == a + b' && (a + b)[|a + b| - 1] == last;
      AssignConcat(a, b');
      calc {
        Assign(a + b);
        Assign(a + b') + last;
        (Assign(a) + Assign(b')) + last;
        { MapUnionAssociative(Assign(a), Assign(b'), last); }
        Assign(a) + (Assign(b') + last);
        Assign(a) + Assign(b);
      }
    }
  }

  lemma MapUnionAssociative<K, V>(x: map<K, V>, y: map<K, V>, z: map<K, V>)
    ensures (x + y) + z == x + (y + z)
  {
  }
}
