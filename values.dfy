/**
 * The values a state slot holds, the deep reactivity wrapper, and the
 * MessagePack codec as an abstract pair.
 *
 * `wrapDeep` (src/lib/state-manager.ts) replaces every array and object it
 * reaches by a Proxy over a copy. Here a value is immutable data and a proxy
 * is a flag on the container: `Wrap` copies the data and sets the flag on
 * every container it reaches. A trap of the proxy (property set, property
 * delete) is an explicit `Trap` applied at a path of steps from the slot's
 * root.
 */
module Values {
  import opened Wrappers
  import Base64Url

  /**
   * JSON-like data. `proxied` marks an array or object that is reached
   * through a Proxy whose traps commit the store.
   */
  datatype Value =
    | Null
    | Bool(b: bool)
    | Num(n: int)
    | Str(s: string)
    | Arr(items: seq<Value>, proxied: bool)
    | Obj(fields: map<string, Value>, proxied: bool)

  predicate IsContainer(v: Value) {
    v.Arr? || v.Obj?
  }

  /** The data a reader sees through the proxies: every flag cleared. */
  function Plain(v: Value): Value {
    match v
    case Arr(items, _) => Arr(seq(|items|, i requires 0 <= i < |items| => Plain(items[i])), false)
    case Obj(fields, _) => Obj(map k | k in fields :: Plain(fields[k]), false)
    case _ => v
  }

  /** No container anywhere in `v` is a proxy. */
  predicate IsPlain(v: Value) {
    match v
    case Arr(items, proxied) => !proxied && forall i :: 0 <= i < |items| ==> IsPlain(items[i])
    case Obj(fields, proxied) => !proxied && forall k :: k in fields ==> IsPlain(fields[k])
    case _ => true
  }

  /** Every container anywhere in `v` is a proxy. */
  predicate DeepLive(v: Value) {
    match v
    case Arr(items, proxied) => proxied && forall i :: 0 <= i < |items| ==> DeepLive(items[i])
    case Obj(fields, proxied) => proxied && forall k :: k in fields ==> DeepLive(fields[k])
    case _ => true
  }

  /**
   * `wrapDeep` as a value: primitives (falsy or not) come back as they are,
   * arrays and objects are copied element by element and field by field
   * with wrapped children, and the copy is proxied.
   */
  function Wrap(v: Value): Value {
    match v
    case Arr(items, _) => Arr(seq(|items|, i requires 0 <= i < |items| => Wrap(items[i])), true)
    case Obj(fields, _) => Obj(map k | k in fields :: Wrap(fields[k]), true)
    case _ => v
  }

  // ---------------------------------------------------------------------
  // Properties of the wrapper
  // ---------------------------------------------------------------------

  /** Erasing the flags gives plain data. */
  lemma {:induction false} PlainIsPlain(v: Value)
    ensures IsPlain(Plain(v))
  {
    match v
    case Arr(items, _) =>
      forall i | 0 <= i < |items| ensures IsPlain(Plain(items[i])) {
        PlainIsPlain(items[i]);
      }
    case Obj(fields, _) =>
      forall k | k in fields ensures IsPlain(Plain(fields[k])) {
        PlainIsPlain(fields[k]);
      }
    case _ =>
  }

  /**
   * The wrapper is transparent and deep: it leaves primitives alone, every
   * container it returns is a proxy, and reading through the proxies gives
   * the data that was wrapped.
   */
  lemma {:induction false} WrapIsDeepView(v: Value)
    ensures !IsContainer(v) ==> Wrap(v) == v
    ensures IsContainer(Wrap(v)) == IsContainer(v)
    ensures DeepLive(Wrap(v))
    ensures Plain(Wrap(v)) == Plain(v)
  {
    match v
    case Arr(items, _) =>
      forall i | 0 <= i < |items| ensures DeepLive(Wrap(items[i])) && Plain(Wrap(items[i])) == Plain(items[i]) {
        WrapIsDeepView(items[i]);
      }
    case Obj(fields, _) =>
      forall k | k in fields ensures DeepLive(Wrap(fields[k])) && Plain(Wrap(fields[k])) == Plain(fields[k]) {
        WrapIsDeepView(fields[k]);
      }
    case _ =>
  }

  /** Wrapping the data read out of a fully wrapped value rebuilds that value. */
  lemma {:induction false} WrapPlainOfLive(v: Value)
    requires DeepLive(v)
    ensures Wrap(Plain(v)) == v
  {
    match v
    case Arr(items, _) =>
      forall i | 0 <= i < |items| ensures Wrap(Plain(items[i])) == items[i] {
        WrapPlainOfLive(items[i]);
      }
    case Obj(fields, _) =>
      forall k | k in fields ensures Wrap(Plain(fields[k])) == fields[k] {
        WrapPlainOfLive(fields[k]);
      }
    case _ =>
  }

  // ---------------------------------------------------------------------
  // Nested edits: the proxy traps
  // ---------------------------------------------------------------------

  /** One property access: a field of an object or an index of an array. */
  datatype Step = Field(name: string) | Index(i: nat)

  /** The node reached from `v` by following `path`, if any. */
  function Lookup(v: Value, path: seq<Step>): Option<Value>
    decreases |path|
  {
    if path == [] then Some(v)
    else match (v, path[0])
      case (Obj(fields, _), Field(n)) => if n in fields then Lookup(fields[n], path[1..]) else None
      case (Arr(items, _), Index(i)) => if i < |items| then Lookup(items[i], path[1..]) else None
      case _ => None
  }

  /**
   * The two traps of the handler: `set` (assignment of a property or array
   * element) and `deleteProperty` (the `delete` operator on an object field).
   */
  datatype Trap = SetProp(step: Step, value: Value) | DeleteProp(name: string)

  /** The traps the model covers on a given target. */
  predicate Applicable(target: Value, t: Trap) {
    match t
    case SetProp(Field(_), _) => target.Obj?
    case SetProp(Index(i), _) => target.Arr? && i <= |target.items|
    case DeleteProp(_) => target.Obj?
  }

  predicate CanEdit(v: Value, path: seq<Step>, t: Trap) {
    Lookup(v, path).Some? && Applicable(Lookup(v, path).value, t)
  }

  /** The underlying change a trap applies to its target (`target[prop] = val`, `delete target[prop]`). */
  function ApplyTrap(target: Value, t: Trap): Value
    requires Applicable(target, t)
  {
    match t
    case SetProp(Field(n), w) => Obj(target.fields[n := w], target.proxied)
    case SetProp(Index(i), w) =>
      if i < |target.items| then Arr(target.items[i := w], target.proxied)
      else Arr(target.items + [w], target.proxied)
    case DeleteProp(n) => Obj(target.fields - {n}, target.proxied)
  }

  /** `v` with the trap applied to the node at `path`; everything else is kept. */
  function Put(v: Value, path: seq<Step>, t: Trap): Value
    requires CanEdit(v, path, t)
    decreases |path|
  {
    if path == [] then ApplyTrap(v, t)
    else match (v, path[0])
      case (Obj(fields, p), Field(n)) => Obj(fields[n := Put(fields[n], path[1..], t)], p)
      case (Arr(items, p), Index(i)) => Arr(items[i := Put(items[i], path[1..], t)], p)
  }

  /** After an assignment through a handle, reading the same property gives the assigned value. */
  lemma {:induction false} PutThenLookup(v: Value, path: seq<Step>, step: Step, w: Value)
    requires CanEdit(v, path, SetProp(step, w))
    ensures Lookup(Put(v, path, SetProp(step, w)), path + [step]) == Some(w)
    decreases |path|
  {
    if path == [] {
      assert [] + [step] == [step];
    } else {
      assert (path + [step])[1..] == path[1..] + [step];
      match (v, path[0])
      case (Obj(fields, p), Field(n)) => PutThenLookup(fields[n], path[1..], step, w);
      case (Arr(items, p), Index(i)) => PutThenLookup(items[i], path[1..], step, w);
    }
  }

  /** After a `delete` through a handle, the field is gone. */
  lemma {:induction false} DeleteThenLookup(v: Value, path: seq<Step>, name: string)
    requires CanEdit(v, path, DeleteProp(name))
    ensures Lookup(Put(v, path, DeleteProp(name)), path + [Field(name)]) == None
    decreases |path|
  {
    if path == [] {
      assert [] + [Field(name)] == [Field(name)];
    } else {
      assert (path + [Field(name)])[1..] == path[1..] + [Field(name)];
      match (v, path[0])
      case (Obj(fields, p), Field(n)) => DeleteThenLookup(fields[n], path[1..], name);
      case (Arr(items, p), Index(i)) => DeleteThenLookup(items[i], path[1..], name);
    }
  }

  /** A trap keeps the slot fully wrapped when the value it stores is wrapped (`self.wrapDeep(val)`). */
  lemma {:induction false} PutKeepsLive(v: Value, path: seq<Step>, t: Trap)
    requires CanEdit(v, path, t) && DeepLive(v)
    requires t.SetProp? ==> DeepLive(t.value)
    ensures DeepLive(Put(v, path, t))
    decreases |path|
  {
    if path != [] {
      match (v, path[0])
      case (Obj(fields, p), Field(n)) => PutKeepsLive(fields[n], path[1..], t);
      case (Arr(items, p), Index(i)) => PutKeepsLive(items[i], path[1..], t);
    }
  }

  /** Reading through the proxies commutes with following a path. */
  lemma {:induction false} LookupPlain(v: Value, path: seq<Step>)
    ensures Lookup(Plain(v), path) == (match Lookup(v, path) case None => None case Some(x) => Some(Plain(x)))
    decreases |path|
  {
    if path != [] {
      match (v, path[0])
      case (Obj(fields, _), Field(n)) =>
        if n in fields { LookupPlain(fields[n], path[1..]); }
      case (Arr(items, _), Index(i)) =>
        if i < |items| { LookupPlain(items[i], path[1..]); }
      case _ =>
    }
  }

  // ---------------------------------------------------------------------
  // The MessagePack codec
  // ---------------------------------------------------------------------

  /**
   * The MessagePack encoder and decoder of the `@jsonjoy.com/json-pack`
   * library, which is not part of this model, as a pair of functions. A
   * decode failure (truncated or corrupt input) is `None`.
   */
  datatype Codec = Codec(encode: Value -> seq<Base64Url.byte>, decode: seq<Base64Url.byte> -> Option<Value>)

  /**
   * What the store relies on from MessagePack: plain data encodes to at least
   * one byte and decodes back to itself.
   */
  ghost predicate Lawful(c: Codec) {
    forall v :: IsPlain(v) ==> |c.encode(v)| > 0 && c.decode(c.encode(v)) == Some(v)
  }
}
