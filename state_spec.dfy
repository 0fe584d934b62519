/**
 * What the persistence store (class `StateManager` of
 * src/lib/state-manager.ts) computes, as functions of its inputs: the seed
 * chosen at construction, the positional decoding of the URL fragment, the
 * snapshot a commit writes, and the fan-out to subscribers. The class in
 * module StateSync is proved against these functions; the lemmas here state
 * what the store promises about them.
 */
module StateSpec {
  import opened Wrappers
  import opened Collections
  import opened Values
  import Base64Url

  /**
   * What `localStorage.getItem(storageKey)` followed by `JSON.parse` yields:
   * an object's fields, or a text that is empty, does not parse or parses to
   * `null` (all three make `loadFromLocalStorage` return `null`).
   */
  datatype Stored = Record(fields: map<string, Value>) | Unreadable

  /**
   * A subscriber callback, identified by the datatype value itself (the
   * source's `Set` compares functions by identity). What it does when called
   * is part of the model because a callback may throw or call `set` again.
   */
  datatype Reaction = Quiet | Throws | Sets(key: string, value: Value)
  datatype Subscriber = Subscriber(id: nat, reaction: Reaction)

  /** One call `s(this.state)`: who was called and the state it was given. */
  datatype Delivery = Delivery(to: Subscriber, seen: map<string, Value>)

  // ---------------------------------------------------------------------
  // Seed resolution (constructor, loadFromUrl, loadFromLocalStorage, decodeValues)
  // ---------------------------------------------------------------------

  /** `location.hash.slice(1)` */
  function Fragment(hash: string): string {
    if |hash| == 0 then "" else hash[1..]
  }

  /**
   * `values.length` for the decoded payload `values`: arrays and strings have
   * one; on numbers, booleans and objects it is `undefined`, so the guard
   * `i < values.length` never holds. (`null` is handled by the caller.)
   */
  function PayloadLength(p: Value): nat {
    match p
    case Arr(items, _) => |items|
    case Str(s) => |s|
    case _ => 0
  }

  /** `values[i]`: an array element, or a one-character string. */
  function PayloadAt(p: Value, i: nat): Value
    requires i < PayloadLength(p)
  {
    match p
    case Arr(items, _) => items[i]
    case Str(s) => Str([s[i]])
  }

  /** The map `decodeValues` has built after its first `n` iterations. */
  function Zip(keys: seq<string>, p: Value, n: nat): map<string, Value>
    requires n <= |keys|
  {
    if n == 0 then map[]
    else
      var m := Zip(keys, p, n - 1);
      if n - 1 < PayloadLength(p) then m[keys[n - 1] := PayloadAt(p, n - 1)] else m
  }

  /**
   * The positional reading of a decoded payload: `null` makes `values.length`
   * throw, which `decodeValues` turns into `null`; with no keys the loop never
   * reads `values.length`, and the result is the empty map.
   */
  function Positional(keys: seq<string>, p: Value): Option<map<string, Value>> {
    if p.Null? && |keys| > 0 then None else Some(Zip(keys, p, |keys|))
  }

  /** `decodeValues(encoded)`: every failure on the way is `None`. */
  function DecodeValues(keys: seq<string>, codec: Codec, encoded: string): Option<map<string, Value>> {
    match Base64Url.Decode(encoded)
    case None => None
    case Some(bytes) =>
      match codec.decode(bytes)
      case None => None
      case Some(p) => Positional(keys, p)
  }

  /** `loadFromUrl()` */
  function UrlSeed(keys: seq<string>, codec: Codec, hash: string): Option<map<string, Value>> {
    var h := Fragment(hash);
    if h == "" then None else DecodeValues(keys, codec, h)
  }

  /** `loadFromLocalStorage()`: the record's fields, restricted to known keys. */
  function StorageSeed(keys: seq<string>, storage: map<string, Stored>, storageKey: string): Option<map<string, Value>> {
    if storageKey !in storage then None
    else match storage[storageKey]
      case Unreadable => None
      case Record(f) => Some(map k | k in f && k in keys :: f[k])
  }

  /** `fromUrl ?? fromLs ?? initial` */
  function ChosenSeed(urlSeed: Option<map<string, Value>>, lsSeed: Option<map<string, Value>>,
                      initial: map<string, Value>): map<string, Value> {
    if urlSeed.Some? then urlSeed.value else if lsSeed.Some? then lsSeed.value else initial
  }

  /** The two constructor loops: known keys from the seed, the rest from `initial`, all wrapped. */
  function Seeded(keys: seq<string>, initial: map<string, Value>, seed: map<string, Value>): map<string, Value>
    requires Elems(keys) <= initial.Keys
  {
    map k | k in keys :: Wrap(if k in seed then seed[k] else initial[k])
  }

  /** The state a freshly constructed store holds. */
  function InitialState(keys: seq<string>, initial: map<string, Value>, codec: Codec,
                        hash: string, storage: map<string, Stored>, storageKey: string): map<string, Value>
    requires Elems(keys) <= initial.Keys
  {
    Seeded(keys, initial, ChosenSeed(UrlSeed(keys, codec, hash), StorageSeed(keys, storage, storageKey), initial))
  }

  // ---------------------------------------------------------------------
  // Commit (encodeValues, the localStorage record, notify)
  // ---------------------------------------------------------------------

  /** The state is complete over the key set and every value is fully wrapped. */
  predicate WellFormed(keys: seq<string>, state: map<string, Value>) {
    state.Keys == Elems(keys) && forall k :: k in state ==> DeepLive(state[k])
  }

  /** `keys.map(k => this.state.get(k))`, as the encoder reads it through the proxies. */
  function Snapshot(keys: seq<string>, state: map<string, Value>): Value
    requires Elems(keys) <= state.Keys
  {
    Arr(seq(|keys|, i requires 0 <= i < |keys| => Plain(state[keys[i]])), false)
  }

  /** `encodeValues()` */
  function EncodedState(codec: Codec, keys: seq<string>, state: map<string, Value>): string
    requires Elems(keys) <= state.Keys
  {
    Base64Url.Encode(codec.encode(Snapshot(keys, state)))
  }

  /** `JSON.stringify` of the plain record copied from the state. */
  function Durable(state: map<string, Value>): Stored {
    Record(map k | k in state :: Plain(state[k]))
  }

  /** `location.hash` after `history.replaceState(null, '', '#' + encoded)`. */
  function HashAfterReplace(encoded: string): string {
    if encoded == "" then "" else "#" + encoded
  }

  /** The state after a subscriber's nested `set(k, v)`, whose own commit is dropped. */
  function React(keys: seq<string>, r: Reaction, state: map<string, Value>): map<string, Value> {
    if r.Sets? && r.key in keys then state[r.key := Wrap(r.value)] else state
  }

  datatype Fanout = Fanout(state: map<string, Value>, deliveries: seq<Delivery>, completed: bool)

  /**
   * `notify()`: each subscriber in registration order is called with the
   * live state; a subscriber that throws ends the loop (the source does not
   * guard the calls), and `completed` is false.
   */
  function NotifyAll(keys: seq<string>, subs: seq<Subscriber>, state: map<string, Value>): Fanout
    decreases |subs|
  {
    if subs == [] then Fanout(state, [], true)
    else
      var d := Delivery(subs[0], state);
      if subs[0].reaction.Throws? then Fanout(state, [d], false)
      else
        var rest := NotifyAll(keys, subs[1..], React(keys, subs[0].reaction, state));
        Fanout(rest.state, [d] + rest.deliveries, rest.completed)
  }

  /** A fan-out continued after the deliveries already made. */
  function Prefixed(done: seq<Delivery>, f: Fanout): Fanout {
    Fanout(f.state, done + f.deliveries, f.completed)
  }

  /** One step of `notify()`: the subscriber at `i` either ends the fan-out or hands on its reaction. */
  lemma NotifyAllStep(keys: seq<string>, subs: seq<Subscriber>, i: nat, state: map<string, Value>, done: seq<Delivery>)
    requires i < |subs|
    ensures var d := Delivery(subs[i], state);
            var here := Prefixed(done, NotifyAll(keys, subs[i..], state));
            if subs[i].reaction.Throws? then here == Fanout(state, done + [d], false)
            else here == Prefixed(done + [d], NotifyAll(keys, subs[i + 1..], React(keys, subs[i].reaction, state)))
  {
    assert subs[i..][0] == subs[i] && subs[i..][1..] == subs[i + 1..];
    if !subs[i].reaction.Throws? {
      var rest := NotifyAll(keys, subs[i + 1..], React(keys, subs[i].reaction, state));
      assert done + ([Delivery(subs[i], state)] + rest.deliveries) == (done + [Delivery(subs[i], state)]) + rest.deliveries;
    }
  }

  /** The first `n` subscribers never throw. */
  predicate NoneThrowBefore(subs: seq<Subscriber>, n: nat)
    requires n <= |subs|
  {
    forall j :: 0 <= j < n ==> !subs[j].reaction.Throws?
  }

  // ---------------------------------------------------------------------
  // Properties
  // ---------------------------------------------------------------------

  /** After construction the key domain is exactly the key set and every value is wrapped. */
  lemma InitialStateWellFormed(keys: seq<string>, initial: map<string, Value>, codec: Codec,
                               hash: string, storage: map<string, Stored>, storageKey: string)
    requires Elems(keys) <= initial.Keys
    ensures WellFormed(keys, InitialState(keys, initial, codec, hash, storage, storageKey))
  {
    var s := InitialState(keys, initial, codec, hash, storage, storageKey);
    forall k | k in s ensures DeepLive(s[k]) {
      var seed := ChosenSeed(UrlSeed(keys, codec, hash), StorageSeed(keys, storage, storageKey), initial);
      WrapIsDeepView(if k in seed then seed[k] else initial[k]);
    }
  }

  /**
   * Seed priority: a non-empty fragment that decodes wins (even when it
   * decodes to no values at all); otherwise a readable storage record wins,
   * contributing only known keys; otherwise the defaults. Keys the chosen
   * seed lacks take their default.
   */
  lemma SeedPriority(keys: seq<string>, initial: map<string, Value>, codec: Codec,
                     hash: string, storage: map<string, Stored>, storageKey: string, k: string)
    requires Elems(keys) <= initial.Keys && k in keys
    ensures var s := InitialState(keys, initial, codec, hash, storage, storageKey);
            var url := UrlSeed(keys, codec, hash);
            var ls := StorageSeed(keys, storage, storageKey);
            && (url.Some? ==> s[k] == Wrap(if k in url.value then url.value[k] else initial[k]))
            && (url.None? && ls.Some? ==> s[k] == Wrap(if k in ls.value then ls.value[k] else initial[k]))
            && (url.None? && ls.None? ==> s[k] == Wrap(initial[k]))
            && (Fragment(hash) == "" ==> url.None?)
  {
  }

  /** A storage record contributes exactly its fields whose names are known keys. */
  lemma StorageSeedKnownKeysOnly(keys: seq<string>, storage: map<string, Stored>, storageKey: string)
    requires storageKey in storage && storage[storageKey].Record?
    ensures var m := StorageSeed(keys, storage, storageKey).value;
            var f := storage[storageKey].fields;
            m.Keys == f.Keys * Elems(keys) && forall k :: k in m ==> m[k] == f[k]
  {
  }

  /**
   * Positional decoding: `keys[i]` is set to `values[i]` exactly when
   * `i < values.length`.
   */
  lemma {:induction false} ZipPositional(keys: seq<string>, p: Value, n: nat, i: nat)
    requires Distinct(keys) && n <= |keys| && i < |keys|
    ensures keys[i] in Zip(keys, p, n) <==> i < n && i < PayloadLength(p)
    ensures keys[i] in Zip(keys, p, n) ==> Zip(keys, p, n)[keys[i]] == PayloadAt(p, i)
    ensures Zip(keys, p, n).Keys <= Elems(keys)
  {
    if n > 0 {
      ZipPositional(keys, p, n - 1, i);
    }
  }

  /** The decoded map of an array payload, key by key. */
  lemma PositionalArray(keys: seq<string>, items: seq<Value>, proxied: bool)
    requires Distinct(keys)
    ensures var m := Positional(keys, Arr(items, proxied));
            && m.Some?
            && m.value.Keys <= Elems(keys)
            && forall i :: 0 <= i < |keys| ==>
                 (keys[i] in m.value <==> i < |items|) && (i < |items| ==> m.value[keys[i]] == items[i])
  {
    forall i | 0 <= i < |keys|
      ensures var m := Zip(keys, Arr(items, proxied), |keys|);
              (keys[i] in m <==> i < |items|) && (i < |items| ==> m[keys[i]] == items[i])
    {
      ZipPositional(keys, Arr(items, proxied), |keys|, i);
    }
    if |keys| > 0 {
      ZipPositional(keys, Arr(items, proxied), |keys|, 0);
    }
  }

  /**
   * A decoded `null` is a failure of the whole URL seed, not an empty one,
   * unless there are no keys: then nothing reads `values.length`.
   */
  lemma PositionalNull(keys: seq<string>)
    ensures Positional(keys, Null).None? <==> |keys| > 0
    ensures |keys| == 0 ==> Positional(keys, Null) == Some(map[])
  {
  }

  lemma SnapshotIsPlain(keys: seq<string>, state: map<string, Value>)
    requires Elems(keys) <= state.Keys
    ensures IsPlain(Snapshot(keys, state))
  {
    var snap := Snapshot(keys, state);
    forall i | 0 <= i < |keys| ensures IsPlain(snap.items[i]) {
      PlainIsPlain(state[keys[i]]);
    }
  }

  /** A non-empty byte string survives the trip through the fragment: `#` + text, then `slice(1)`. */
  lemma FragmentOfEncoding(bytes: seq<Base64Url.byte>)
    requires |bytes| > 0
    ensures Fragment(HashAfterReplace(Base64Url.Encode(bytes))) == Base64Url.Encode(bytes) != ""
    ensures Base64Url.Decode(Base64Url.Encode(bytes)) == Some(bytes)
  {
    Base64Url.RoundTrip(bytes);
    Base64Url.EncodeUnpadded(bytes);
  }

  lemma ZipOfSnapshot(keys: seq<string>, state: map<string, Value>)
    requires Distinct(keys) && Elems(keys) <= state.Keys
    ensures Zip(keys, Snapshot(keys, state), |keys|) == map k | k in keys :: Plain(state[k])
  {
    var snap := Snapshot(keys, state);
    PositionalArray(keys, snap.items, false);
    var m := Zip(keys, snap, |keys|);
    var want := map k | k in keys :: Plain(state[k]);
    forall k | k in keys ensures k in m && m[k] == want[k] {
      var i :| 0 <= i < |keys| && keys[i] == k;
    }
  }

  /**
   * The shareable link: the fragment a commit schedules decodes back to the
   * data of every key, given a MessagePack codec that round-trips.
   */
  lemma {:induction false} FragmentRoundTrip(codec: Codec, keys: seq<string>, state: map<string, Value>)
    requires Lawful(codec) && Distinct(keys) && Elems(keys) <= state.Keys
    ensures UrlSeed(keys, codec, HashAfterReplace(EncodedState(codec, keys, state)))
            == Some(map k | k in keys :: Plain(state[k]))
  {
    var snap := Snapshot(keys, state);
    SnapshotIsPlain(keys, state);
    var bytes := codec.encode(snap);
    assert |bytes| > 0 && codec.decode(bytes) == Some(snap);
    FragmentOfEncoding(bytes);
    ZipOfSnapshot(keys, state);
  }

  /**
   * Loading a link: a store constructed from the fragment another store with
   * the same key set scheduled holds exactly that store's state, whatever
   * local storage holds.
   */
  lemma SharedLinkRestoresState(codec: Codec, keys: seq<string>, initial: map<string, Value>,
                                state: map<string, Value>, storage: map<string, Stored>, storageKey: string)
    requires Lawful(codec) && Distinct(keys) && Elems(keys) <= initial.Keys && WellFormed(keys, state)
    ensures InitialState(keys, initial, codec, HashAfterReplace(EncodedState(codec, keys, state)), storage, storageKey)
            == state
  {
    FragmentRoundTrip(codec, keys, state);
    var s := InitialState(keys, initial, codec, HashAfterReplace(EncodedState(codec, keys, state)), storage, storageKey);
    forall k | k in keys ensures s[k] == state[k] {
      WrapPlainOfLive(state[k]);
    }
  }

  /**
   * Reloading without a fragment: the record a commit writes seeds the next
   * store with the same state.
   */
  lemma ReloadRestoresState(codec: Codec, keys: seq<string>, initial: map<string, Value>,
                            state: map<string, Value>, storage: map<string, Stored>, storageKey: string,
                            hash: string)
    requires Elems(keys) <= initial.Keys && WellFormed(keys, state) && UrlSeed(keys, codec, hash).None?
    ensures InitialState(keys, initial, codec, hash, storage[storageKey := Durable(state)], storageKey) == state
  {
    var s := InitialState(keys, initial, codec, hash, storage[storageKey := Durable(state)], storageKey);
    forall k | k in keys ensures s[k] == state[k] {
      WrapPlainOfLive(state[k]);
    }
  }

  /** With neither a fragment nor a readable record, the store starts from the defaults. */
  lemma DefaultsWhenNothingStored(keys: seq<string>, initial: map<string, Value>, codec: Codec,
                                  storageKey: string)
    requires Elems(keys) == initial.Keys
    ensures InitialState(keys, initial, codec, "", map[], storageKey) == map k | k in initial :: Wrap(initial[k])
  {
  }

  /**
   * The fan-out calls the subscribers in registration order, each once,
   * with the state as it is at that moment; it stops right after the first
   * subscriber that throws.
   */
  lemma {:induction false} NotifyAllOrder(keys: seq<string>, subs: seq<Subscriber>, state: map<string, Value>)
    ensures var f := NotifyAll(keys, subs, state);
            && |f.deliveries| <= |subs|
            && (forall i :: 0 <= i < |f.deliveries| ==> f.deliveries[i].to == subs[i])
            && (f.completed <==> NoneThrowBefore(subs, |subs|))
            && (f.completed ==> |f.deliveries| == |subs|)
            && (!f.completed ==> NoneThrowBefore(subs, |f.deliveries| - 1) && subs[|f.deliveries| - 1].reaction.Throws?)
            && (subs != [] ==> f.deliveries[0].seen == state)
    decreases |subs|
  {
    if subs != [] && !subs[0].reaction.Throws? {
      NotifyAllOrder(keys, subs[1..], React(keys, subs[0].reaction, state));
    }
  }

  /** A subscriber that is not registered receives nothing. */
  lemma {:induction false} NotifyAllOnlyRegistered(keys: seq<string>, subs: seq<Subscriber>,
                                                   state: map<string, Value>, fn: Subscriber)
    requires fn !in subs
    ensures forall d :: d in NotifyAll(keys, subs, state).deliveries ==> d.to != fn
    decreases |subs|
  {
    if subs != [] && !subs[0].reaction.Throws? {
      NotifyAllOnlyRegistered(keys, subs[1..], React(keys, subs[0].reaction, state), fn);
    }
  }

  /** Subscribers' nested `set` calls keep the key domain and the wrapping. */
  lemma {:induction false} NotifyAllWellFormed(keys: seq<string>, subs: seq<Subscriber>, state: map<string, Value>)
    requires WellFormed(keys, state)
    ensures WellFormed(keys, NotifyAll(keys, subs, state).state)
    decreases |subs|
  {
    if subs != [] && !subs[0].reaction.Throws? {
      var r := subs[0].reaction;
      if r.Sets? {
        WrapIsDeepView(r.value);
      }
      NotifyAllWellFormed(keys, subs[1..], React(keys, r, state));
    }
  }

  /** The stored record reflects a nested assignment made through a handle. */
  lemma NestedEditPersisted(state: map<string, Value>, key: string, path: seq<Step>, step: Step, value: Value)
    requires key in state && CanEdit(state[key], path, SetProp(step, Wrap(value)))
    ensures var s := state[key := Put(state[key], path, SetProp(step, Wrap(value)))];
            Lookup(Durable(s).fields[key], path + [step]) == Some(Plain(value))
  {
    var edited := Put(state[key], path, SetProp(step, Wrap(value)));
    PutThenLookup(state[key], path, step, Wrap(value));
    LookupPlain(edited, path + [step]);
    WrapIsDeepView(value);
  }
}
