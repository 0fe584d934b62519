/**
 * The behaviours tests/state-manager.test.ts exercises, as methods over the
 * store: each builds a fresh page (`Browser`), drives the store as the test
 * does, and states in its contract what the test expects.
 */
module StateScenarios {
  import opened Wrappers
  import opened Collections
  import opened Values
  import opened StateSpec
  import opened StateSync

  /** A store opened on a fresh page (no fragment, no stored record): it starts from the defaults. */
  method OpenFresh(keys: seq<string>, initial: map<string, Value>, codec: Codec) returns (sm: StateManager)
    requires Distinct(keys) && Elems(keys) == initial.Keys
    ensures fresh(sm) && fresh(sm.browser)
    ensures sm.Valid() && sm.keys == keys && sm.storageKey == "test-key"
    ensures sm.state == map k | k in initial :: Wrap(initial[k])
    ensures sm.subs == [] && sm.log == [] && !sm.committing
    ensures sm.browser.writes == 1
  {
    var browser := new Browser("", map[]);
    sm := new StateManager(keys, initial, codec, browser, "test-key");
    DefaultsWhenNothingStored(keys, initial, codec, "test-key");
  }

  /** Without a fragment or a record, `get` returns the defaults. */
  method DefaultsScenario(codec: Codec) returns (count: Option<Value>, name: Option<Value>)
    ensures count == Some(Num(10)) && name == Some(Str("test"))
  {
    var initial := map["count" := Num(10), "name" := Str("test")];
    var sm := OpenFresh(["count", "name"], initial, codec);
    count := sm.Get("count");
    name := sm.Get("name");
  }

  /**
   * `set` on a known key: `get` sees the new value, the subscriber is called
   * once with it, and storage is written once more than by the constructor.
   */
  method SetScenario(codec: Codec) returns (count: Option<Value>, calls: nat, writes: nat)
    ensures count == Some(Num(20)) && calls == 1 && writes == 2
  {
    var initial := map["count" := Num(10)];
    var sm := OpenFresh(["count"], initial, codec);
    var subscriber := Subscriber(0, Quiet);
    sm.Subscribe(subscriber);
    assert sm.subs == [subscriber] && "count" in sm.keys;
    ghost var s1 := sm.state["count" := Num(20)];
    assert Wrap(Num(20)) == Num(20);
    NotifyQuiet(["count"], subscriber, s1);
    var _ := sm.Set("count", Num(20));
    assert sm.state == s1 && sm.log == [Delivery(subscriber, s1)];
    count := sm.Get("count");
    calls := |sm.log|;
    writes := sm.browser.writes;
  }

  /** A readable record in storage seeds the store when there is no fragment. */
  method StorageScenario(codec: Codec) returns (count: Option<Value>)
    ensures count == Some(Num(50))
  {
    var browser := new Browser("", map["test-key" := Record(map["count" := Num(50)])]);
    var initial := map["count" := Num(10)];
    var sm := new StateManager(["count"], initial, codec, browser, "test-key");
    count := sm.Get("count");
  }

  /**
   * An assignment through the handle `get` returned (`user.settings.theme =
   * 'light'`) commits, and the record written last holds the new theme.
   */
  method DeepEditScenario(codec: Codec) returns (saved: Option<Value>)
    ensures saved == Some(Str("light"))
  {
    var settings := Obj(map["theme" := Str("dark")], false);
    var user := Obj(map["name" := Str("Alice"), "settings" := settings], false);
    var initial := map["user" := user];
    var sm := OpenFresh(["user"], initial, codec);
    assert sm.state["user"] == Wrap(user);
    var path := [Field("settings")];
    assert Lookup(Wrap(user), path) == Some(Wrap(settings));
    ghost var before := sm.state;
    var _ := sm.SetProperty("user", path, Field("theme"), Str("light"));
    NestedEditPersisted(before, "user", path, Field("theme"), Str("light"));
    var stored := sm.browser.storage["test-key"];
    saved := Lookup(stored.fields["user"], path + [Field("theme")]);
  }

  /**
   * A shared link: after `set('a', 100)` and the debounce timer, a second
   * store built on the same page reads its state back from the fragment.
   */
  method ShareLinkScenario(codec: Codec) returns (a: Option<Value>, b: Option<Value>)
    requires Lawful(codec)
    ensures a == Some(Num(100)) && b == Some(Str("test"))
  {
    var browser := new Browser("", map[]);
    var keys := ["a", "b"];
    var initial := map["a" := Num(1), "b" := Str("test")];
    ghost var shared := Publish(codec, browser, keys, initial);
    SharedLinkRestoresState(codec, keys, initial, shared, browser.storage, "test-key");
    var sm2 := new StateManager(keys, initial, codec, browser, "test-key");
    a := sm2.Get("a");
    b := sm2.Get("b");
  }

  /** The first half of the shared-link test: a store on a fresh page, one `set`, the timer fires. */
  method Publish(codec: Codec, browser: Browser, keys: seq<string>, initial: map<string, Value>)
    returns (shared: map<string, Value>)
    requires browser.hash == "" && browser.storage == map[]
    requires keys == ["a", "b"] && initial == map["a" := Num(1), "b" := Str("test")]
    modifies browser
    ensures "a" in shared && shared["a"] == Num(100) && "b" in shared && shared["b"] == Str("test")
    ensures WellFormed(keys, shared)
    ensures browser.hash == HashAfterReplace(EncodedState(codec, keys, shared))
  {
    var sm := new StateManager(keys, initial, codec, browser, "test-key");
    assert sm.state["b"] == Wrap(initial["b"]);
    var _ := sm.Set("a", Num(100));
    assert NotifyAll(keys, [], sm.state).state == sm.state;
    shared := sm.state;
    sm.FirePending();
  }

  /** A lone subscriber that does nothing is called once with the state, which stays as it was. */
  lemma NotifyQuiet(keys: seq<string>, sub: Subscriber, state: map<string, Value>)
    requires sub.reaction.Quiet?
    ensures NotifyAll(keys, [sub], state) == Fanout(state, [Delivery(sub, state)], true)
  {
    assert [sub][1..] == [];
  }
}
