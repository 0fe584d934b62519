/**
 * The persistence store of src/lib/state-manager.ts as a class.
 *
 * The browser globals it touches are the fields of a `Browser` object:
 * `location.hash`, the `localStorage` records and a count of
 * `localStorage.setItem` calls. The debounced `setTimeout` is the store's
 * single `pending` slot, and `FirePending` is the timer going off.
 * Subscribers are values whose reaction (nothing, throw, or a nested
 * `set`) is part of the model; `log` records every call made to them.
 */
module StateSync {
  import opened Wrappers
  import opened Collections
  import opened Values
  import opened StateSpec
  import Base64Url

  /** The page's globals that the store reads and writes. */
  class Browser {
    /** `location.hash`: empty, or `#` followed by the fragment. */
    var hash: string
    /** `localStorage`, record by record, as `JSON.parse` reads it back. */
    var storage: map<string, Stored>
    /** How many times `localStorage.setItem` has been called. */
    var writes: nat

    constructor (hash: string, storage: map<string, Stored>)
      ensures this.hash == hash && this.storage == storage && writes == 0
    {
      this.hash := hash;
      this.storage := storage;
      writes := 0;
    }
  }

  /** `wrapDeep(value)`: the copy is built element by element and field by field. */
  method WrapDeep(value: Value) returns (r: Value)
    ensures r == Wrap(value)
    decreases value
  {
    match value {
      case Arr(items, _) =>
        var copy: seq<Value> := [];
        for i := 0 to |items|
          invariant copy == seq(i, j requires 0 <= j < i => Wrap(items[j]))
        {
          var w := WrapDeep(items[i]);
          copy := copy + [w];
        }
        r := Arr(copy, true);
      case Obj(fields, _) =>
        var obj: map<string, Value> := map[];
        var todo := fields.Keys;
        while todo != {}
          invariant todo <= fields.Keys
          invariant obj == map k | k in fields.Keys - todo :: Wrap(fields[k])
          decreases todo
        {
          var k :| k in todo;
          var w := WrapDeep(fields[k]);
          obj := obj[k := w];
          todo := todo - {k};
        }
        r := Obj(obj, true);
      case _ =>
        r := value;
    }
  }

  /**
   * The constructor's two loops: the known keys of the seed, wrapped, then
   * the default of every key the seed lacks, wrapped.
   */
  method SeedFrom(keys: seq<string>, initial: map<string, Value>, seed: map<string, Value>)
    returns (state: map<string, Value>)
    requires Elems(keys) <= initial.Keys
    ensures state == Seeded(keys, initial, seed)
  {
    state := map[];
    var todo := seed.Keys;
    while todo != {}
      invariant todo <= seed.Keys
      invariant forall k :: k in state <==> k in seed && k !in todo && k in keys
      invariant forall k :: k in state ==> state[k] == Wrap(seed[k])
      decreases todo
    {
      var k :| k in todo;
      if k in keys {
        var w := WrapDeep(seed[k]);
        state := state[k := w];
      }
      todo := todo - {k};
    }
    for i := 0 to |keys|
      invariant forall k :: k in state <==> k in keys && (k in seed || k in keys[..i])
      invariant forall k :: k in state ==> state[k] == Wrap(if k in seed then seed[k] else initial[k])
    {
      if keys[i] !in state {
        var w := WrapDeep(initial[keys[i]]);
        state := state[keys[i] := w];
      }
      assert keys[..i + 1] == keys[..i] + [keys[i]];
    }
    assert keys[..|keys|] == keys;
  }

  class StateManager {
    const keys: seq<string>
    const storageKey: string
    const codec: Codec
    const browser: Browser

    var state: map<string, Value>
    /** The subscriber `Set`, in insertion order. */
    var subs: seq<Subscriber>
    var committing: bool
    /** The one scheduled URL rewrite (`commitTimeout`): the fragment it will write. */
    var pending: Option<string>
    /** Every call made to a subscriber so far. */
    var log: seq<Delivery>

    ghost predicate Valid()
      reads this
    {
      Distinct(keys) && WellFormed(keys, state) && Distinct(subs)
    }

    /**
     * Builds the store: the key set is `keyOrder`, the seed is the fragment,
     * else the stored record, else `initial`; missing keys take their
     * default; one commit follows.
     */
    constructor (keyOrder: seq<string>, initial: map<string, Value>, codec: Codec, browser: Browser,
                 storageKey: string := "state")
      requires Distinct(keyOrder) && Elems(keyOrder) == initial.Keys
      modifies browser
      ensures Valid()
      ensures keys == keyOrder && this.storageKey == storageKey && this.codec == codec && this.browser == browser
      ensures state == InitialState(keyOrder, initial, codec, old(browser.hash), old(browser.storage), storageKey)
      ensures subs == [] && log == [] && !committing
      ensures pending == Some(EncodedState(codec, keyOrder, state))
      ensures browser.storage == old(browser.storage)[storageKey := Durable(state)]
      ensures browser.writes == old(browser.writes) + 1 && browser.hash == old(browser.hash)
    {
      keys := keyOrder;
      this.storageKey := storageKey;
      this.codec := codec;
      this.browser := browser;
      state := map[];
      subs := [];
      committing := false;
      pending := None;
      log := [];
      new;
      var fromUrl := LoadFromUrl();
      var fromLs := LoadFromLocalStorage();
      var seed := if fromUrl.Some? then fromUrl.value else if fromLs.Some? then fromLs.value else initial;
      state := SeedFrom(keys, initial, seed);
      InitialStateWellFormed(keys, initial, codec, browser.hash, browser.storage, storageKey);
      var _ := Commit();
    }

    /** `subscribe(fn)`: adding a callback that is already registered changes nothing. */
    method Subscribe(fn: Subscriber)
      requires Valid()
      modifies this`subs
      ensures Valid()
      ensures subs == if fn in old(subs) then old(subs) else old(subs) + [fn]
    {
      if fn !in subs {
        subs := subs + [fn];
      }
    }

    /**
     * The function `subscribe` returns: `this.subs.delete(fn)`. The other
     * subscribers keep their registration order.
     */
    method Unsubscribe(fn: Subscriber)
      requires Valid()
      modifies this`subs
      ensures Valid()
      ensures fn !in subs
      ensures forall s :: s in subs <==> s in old(subs) && s != fn
      ensures fn !in old(subs) ==> subs == old(subs)
      ensures forall j :: 0 <= j < |old(subs)| && old(subs)[j] == fn ==> subs == old(subs)[..j] + old(subs)[j + 1..]
    {
      RemoveMembers(subs, fn);
      if fn !in subs {
        RemoveAbsent(subs, fn);
      }
      forall j | 0 <= j < |subs| && subs[j] == fn
        ensures Remove(subs, fn) == subs[..j] + subs[j + 1..]
      {
        RemoveSplice(subs, j);
      }
      subs := Remove(subs, fn);
    }

    /** `get(key)`: the stored value of a known key, nothing for an unknown one. */
    method Get(key: string) returns (r: Option<Value>)
      requires Valid()
      ensures r.Some? <==> key in keys
      ensures r.Some? ==> r.value == state[key] && DeepLive(r.value)
    {
      r := if key in state then Some(state[key]) else None;
    }

    /** `getState()`: a copy of the key-to-value mapping, complete over the key set. */
    method GetState() returns (r: map<string, Value>)
      requires Valid()
      ensures r.Keys == Elems(keys)
      ensures forall k :: k in r ==> r[k] == state[k]
    {
      r := map k | k in state :: state[k];
    }

    /**
     * `set(key, value)`: an unknown key changes nothing and does not commit;
     * a known key takes the wrapped value and the store commits. A `set` made
     * from inside a commit (by a subscriber) only changes the state.
     */
    method Set(key: string, value: Value) returns (ok: bool)
      requires Valid()
      modifies this, browser
      decreases if committing then 1 else 5
      ensures Valid()
      ensures subs == old(subs) && committing == old(committing) && browser.hash == old(browser.hash)
      ensures key !in keys ==>
        && state == old(state) && log == old(log) && pending == old(pending)
        && browser.storage == old(browser.storage) && browser.writes == old(browser.writes) && ok
      ensures key in keys && old(committing) ==>
        && state == old(state)[key := Wrap(value)] && log == old(log) && pending == old(pending)
        && browser.storage == old(browser.storage) && browser.writes == old(browser.writes) && ok
      ensures key in keys && !old(committing) ==>
        var s1 := old(state)[key := Wrap(value)];
        var f := NotifyAll(keys, subs, s1);
        && pending == Some(EncodedState(codec, keys, s1))
        && browser.storage == old(browser.storage)[storageKey := Durable(s1)]
        && browser.writes == old(browser.writes) + 1
        && state == f.state && log == old(log) + f.deliveries && ok == f.completed
    {
      if key !in keys {
        return true;
      }
      var w := WrapDeep(value);
      WrapIsDeepView(value);
      state := state[key := w];
      ok := Commit();
    }

    /**
     * The proxy's `set` trap on the node at `path` inside the value of
     * `key`: the assigned value is wrapped, stored, and the store commits.
     */
    method SetProperty(key: string, path: seq<Step>, step: Step, value: Value) returns (ok: bool)
      requires Valid() && key in keys && CanEdit(state[key], path, SetProp(step, value))
      modifies this, browser
      ensures Valid()
      ensures subs == old(subs) && committing == old(committing) && browser.hash == old(browser.hash)
      ensures old(committing) ==>
        && state == old(state)[key := Put(old(state)[key], path, SetProp(step, Wrap(value)))]
        && log == old(log) && pending == old(pending)
        && browser.storage == old(browser.storage) && browser.writes == old(browser.writes) && ok
      ensures !old(committing) ==>
        var s1 := old(state)[key := Put(old(state)[key], path, SetProp(step, Wrap(value)))];
        var f := NotifyAll(keys, subs, s1);
        && pending == Some(EncodedState(codec, keys, s1))
        && browser.storage == old(browser.storage)[storageKey := Durable(s1)]
        && browser.writes == old(browser.writes) + 1
        && state == f.state && log == old(log) + f.deliveries && ok == f.completed
    {
      var w := WrapDeep(value);
      WrapIsDeepView(value);
      PutKeepsLive(state[key], path, SetProp(step, w));
      state := state[key := Put(state[key], path, SetProp(step, w))];
      ok := Commit();
    }

    /** The proxy's `deleteProperty` trap on an object inside the value of `key`; the store commits. */
    method DeleteProperty(key: string, path: seq<Step>, name: string) returns (ok: bool)
      requires Valid() && key in keys && CanEdit(state[key], path, DeleteProp(name))
      modifies this, browser
      ensures Valid()
      ensures subs == old(subs) && committing == old(committing) && browser.hash == old(browser.hash)
      ensures old(committing) ==>
        && state == old(state)[key := Put(old(state)[key], path, DeleteProp(name))]
        && log == old(log) && pending == old(pending)
        && browser.storage == old(browser.storage) && browser.writes == old(browser.writes) && ok
      ensures !old(committing) ==>
        var s1 := old(state)[key := Put(old(state)[key], path, DeleteProp(name))];
        var f := NotifyAll(keys, subs, s1);
        && pending == Some(EncodedState(codec, keys, s1))
        && browser.storage == old(browser.storage)[storageKey := Durable(s1)]
        && browser.writes == old(browser.writes) + 1
        && state == f.state && log == old(log) + f.deliveries && ok == f.completed
    {
      PutKeepsLive(state[key], path, DeleteProp(name));
      state := state[key := Put(state[key], path, DeleteProp(name))];
      ok := Commit();
    }

    /**
     * `commit()`: a commit requested while one is running does nothing.
     * Otherwise it schedules the fragment of the current state in place of
     * any earlier one, writes the full record to storage, then notifies;
     * `committing` is false again afterwards. `ok` is false when a
     * subscriber threw, which the source lets escape after its `finally`.
     */
    method Commit() returns (ok: bool)
      requires Valid()
      modifies this, browser
      decreases if committing then 0 else 4
      ensures Valid()
      ensures subs == old(subs) && committing == old(committing) && browser.hash == old(browser.hash)
      ensures old(committing) ==>
        && state == old(state) && log == old(log) && pending == old(pending)
        && browser.storage == old(browser.storage) && browser.writes == old(browser.writes) && ok
      ensures !old(committing) ==>
        var f := NotifyAll(keys, subs, old(state));
        && pending == Some(EncodedState(codec, keys, old(state)))
        && browser.storage == old(browser.storage)[storageKey := Durable(old(state))]
        && browser.writes == old(browser.writes) + 1
        && state == f.state && log == old(log) + f.deliveries && ok == f.completed
    {
      if committing {
        return true;
      }
      committing := true;
      var encoded := EncodeValues();
      // clearTimeout + setTimeout: the new rewrite replaces the old one.
      pending := Some(encoded);
      var plain := PlainRecord();
      browser.storage := browser.storage[storageKey := Record(plain)];
      browser.writes := browser.writes + 1;
      ok := Notify();
      committing := false;
    }

    /** `encodeValues()`: the values in key order, MessagePack, then base64url. */
    method EncodeValues() returns (encoded: string)
      requires Valid()
      ensures encoded == EncodedState(codec, keys, state)
    {
      var st := state;
      var values := seq(|keys|, i requires 0 <= i < |keys| => Plain(st[keys[i]]));
      var binary := codec.encode(Arr(values, false));
      encoded := Base64Url.ToBase64(binary);
    }

    /** The record `commit` copies entry by entry before `JSON.stringify` reads it through the proxies. */
    method PlainRecord() returns (plain: map<string, Value>)
      requires Valid()
      ensures Record(plain) == Durable(state)
    {
      plain := map[];
      var todo := state.Keys;
      while todo != {}
        invariant todo <= state.Keys
        invariant plain == map k | k in state.Keys - todo :: Plain(state[k])
        decreases todo
      {
        var k :| k in todo;
        plain := plain[k := Plain(state[k])];
        todo := todo - {k};
      }
    }

    /** `notify()`: each subscriber in turn, with the live state. */
    method Notify() returns (ok: bool)
      requires Valid() && committing
      modifies this, browser
      decreases 3
      ensures Valid()
      ensures subs == old(subs) && committing && pending == old(pending)
      ensures browser.hash == old(browser.hash) && browser.storage == old(browser.storage)
      ensures browser.writes == old(browser.writes)
      ensures var f := NotifyAll(keys, subs, old(state));
              state == f.state && log == old(log) + f.deliveries && ok == f.completed
    {
      ghost var total := NotifyAll(keys, subs, state);
      ghost var done: seq<Delivery> := [];
      assert subs[0..] == subs;
      var i := 0;
      ok := true;
      while i < |subs| && ok
        invariant 0 <= i <= |subs|
        invariant Valid() && committing
        invariant subs == old(subs) && pending == old(pending) && log == old(log) + done
        invariant browser.hash == old(browser.hash) && browser.storage == old(browser.storage)
        invariant browser.writes == old(browser.writes)
        invariant ok ==> total == Prefixed(done, NotifyAll(keys, subs[i..], state))
        invariant !ok ==> total == Fanout(state, done, false)
        decreases |subs| - i
      {
        var s := subs[i];
        ghost var d := Delivery(s, state);
        NotifyAllStep(keys, subs, i, state, done);
        ok := Deliver(s);
        done := done + [d];
        i := i + 1;
      }
      assert ok ==> done + [] == done;
    }

    /**
     * One call `cb(this.state)` inside `notify()`: the subscriber sees the
     * live state and reacts; a subscriber that assigns goes through `set`,
     * which only stores since a commit is running.
     */
    method Deliver(s: Subscriber) returns (ok: bool)
      requires Valid() && committing
      modifies this, browser
      decreases 2
      ensures Valid()
      ensures subs == old(subs) && committing && pending == old(pending)
      ensures browser.hash == old(browser.hash) && browser.storage == old(browser.storage)
      ensures browser.writes == old(browser.writes)
      ensures state == React(keys, s.reaction, old(state))
      ensures log == old(log) + [Delivery(s, old(state))]
      ensures ok == !s.reaction.Throws?
    {
      log := log + [Delivery(s, state)];
      ok := true;
      match s.reaction {
        case Quiet =>
        case Throws =>
          ok := false;
        case Sets(k, v) =>
          var _ := Set(k, v);
      }
    }

    /** `loadFromUrl()` */
    method LoadFromUrl() returns (r: Option<map<string, Value>>)
      ensures r == UrlSeed(keys, codec, browser.hash)
    {
      var h := if |browser.hash| == 0 then "" else browser.hash[1..];
      if h == "" {
        return None;
      }
      r := DecodeValues(h);
    }

    /** `decodeValues(encoded)`: positional, tolerant of short arrays; any failure is `None`. */
    method DecodeValues(encoded: string) returns (r: Option<map<string, Value>>)
      ensures r == StateSpec.DecodeValues(keys, codec, encoded)
    {
      var bytes := Base64Url.FromBase64(encoded);
      if bytes.None? {
        return None;
      }
      var decoded := codec.decode(bytes.value);
      if decoded.None? || (decoded.value.Null? && |keys| > 0) {
        return None;
      }
      var values := decoded.value;
      var m: map<string, Value> := map[];
      for i := 0 to |keys|
        invariant m == Zip(keys, values, i)
      {
        if i < PayloadLength(values) {
          m := m[keys[i] := PayloadAt(values, i)];
        }
      }
      r := Some(m);
    }

    /** `loadFromLocalStorage()`: the stored record's known keys, or `None`. */
    method LoadFromLocalStorage() returns (r: Option<map<string, Value>>)
      ensures r == StorageSeed(keys, browser.storage, storageKey)
    {
      if storageKey !in browser.storage || browser.storage[storageKey].Unreadable? {
        return None;
      }
      var parsed := browser.storage[storageKey].fields;
      var m: map<string, Value> := map[];
      var todo := parsed.Keys;
      while todo != {}
        invariant todo <= parsed.Keys
        invariant m == map k | k in parsed.Keys - todo && k in keys :: parsed[k]
        decreases todo
      {
        var k :| k in todo;
        if k in keys {
          m := m[k := parsed[k]];
        }
        todo := todo - {k};
      }
      assert m == map k | k in parsed && k in keys :: parsed[k];
      r := Some(m);
    }

    /** The debounce timer going off: the scheduled fragment replaces `location.hash`. */
    method FirePending()
      modifies this`pending, browser`hash
      ensures pending == None
      ensures old(pending).Some? ==> browser.hash == HashAfterReplace(old(pending).value)
      ensures old(pending).None? ==> browser.hash == old(browser.hash)
    {
      if pending.Some? {
        browser.hash := HashAfterReplace(pending.value);
        pending := None;
      }
    }
  }
}
