/**
 * The hook as objects: a `Store` is the storage adapter handed to
 * `createUseStorage` (src/index.ts:34) together with its context's JSON and
 * the events dispatched in that context; a `Binding` is one `useStorage` call,
 * whose React state and ref are its fields. Each method performs, in place, the
 * step module Engine defines for it.
 */
module Hook {
  import opened Wrappers
  import opened Codec
  import opened Envelope
  import opened Engine
  import Properties

  class Store {
    const json: Format
    var items: map<string, string>
    var events: seq<string>

    /** An empty store with no events yet. */
    constructor (json: Format)
      ensures this.json == json && items == map[] && events == []
    {
      this.json := json;
      items := map[];
      events := [];
    }

    /** The store and its event log as a value. */
    function State(): (w: World)
      reads this
      ensures w.items == items && w.events == events
    {
      World(items, events)
    }

    /** `storage.get(key)`. */
    method Get(key: string) returns (r: Option<string>)
      ensures r == Engine.Get(State(), key)
    {
      r := if key in items then Some(items[key]) else None;
    }

    /** `storage.set(key, value)`: also how code outside any binding writes the store. */
    method Put(key: string, value: string)
      modifies this
      ensures items == old(items)[key := value] && events == old(events)
    {
      items := items[key := value];
    }

    /** `document.dispatchEvent(new Event(name))`, recorded; delivery is `Dispatch` below. */
    method DispatchEvent(name: string)
      modifies this
      ensures events == old(events) + [name] && items == old(items)
    {
      events := events + [name];
    }
  }

  class Binding<T> {
    const store: Store
    const config: Config<T>
    /** The React state `value`. */
    var cached: Json
    /** `lastValueRef.current`. */
    var lastSeen: string

    constructor (store: Store, config: Config<T>, start: View)
      ensures this.store == store && this.config == config && State() == start
    {
      this.store := store;
      this.config := config;
      cached := start.cached;
      lastSeen := start.lastSeen;
    }

    /** The binding's own state as a value. */
    function State(): (v: View)
      reads this
      ensures v.cached == cached && v.lastSeen == lastSeen
    {
      View(cached, lastSeen)
    }

    /** `decodedValue`, the value handed to the consumer. */
    function Value(): T
      reads this
    {
      Engine.Value(config, cached)
    }

    /** `wrappedSet(v)` at time `now` (src/index.ts:48-64); `threw` when `JSON.parse` throws. */
    method Set(v: T, now: int) returns (threw: bool)
      modifies this, store
      ensures Step(State(), store.State(), threw) ==
              Engine.Set(config, store.json, old(State()), old(store.State()), v, now)
    {
      var encoded := config.serializer.encode(v);
      var next := Data(encoded, None);
      if config.ttl != 0 && config.serializer.encode(config.initial) != encoded {
        next := Data(encoded, Some(now + config.ttl));
      }
      cached := next.AsJson();
      var oldEncoded := store.Get(config.key);
      var oldValue: Option<string> := None;
      if oldEncoded.Some? && oldEncoded.value != "" {
        var parsed := store.json.parse(oldEncoded.value);
        if parsed.None? {
          threw := true;
          return;
        }
        if parsed.value.Entry? {
          oldValue := parsed.value.value;
        }
      }
      if oldValue != Some(next.value) {
        store.Put(config.key, store.json.stringify(next));
        store.DispatchEvent(EventName(config.key));
      }
      threw := false;
    }

    /**
     * A render at time `now` (src/index.ts:65-77, 127): seed when the cached entry
     * is absent or expired, then expose the decoded value, or `None` when the
     * seeding set threw.
     */
    method Render(now: int) returns (value: Option<T>)
      modifies this, store
      ensures Step(State(), store.State(), value.None?) ==
              Engine.Render(config, store.json, old(State()), old(store.State()), now)
      ensures value.Some? ==> value.value == Engine.Value(config, cached)
    {
      var rendered := cached;
      var threw := false;
      if rendered.Falsy? {
        threw := Set(config.initial, now);
      }
      if Expired(rendered, now) {
        threw := Set(config.initial, now);
      }
      value := if threw then None else Some(Engine.Value(config, cached));
    }

    /** `check` at time `now` (src/index.ts:80-101); `threw` when `JSON.parse` throws. */
    method Check(now: int) returns (threw: bool)
      modifies this, store
      ensures Step(State(), store.State(), threw) ==
              Engine.Check(config, store.json, old(State()), old(store.State()), now)
    {
      var item := store.Get(config.key);
      threw := false;
      if item != Some(lastSeen) {
        var json := store.json.parse(if item.Some? && item.value != "" then item.value else "null");
        if json.None? {
          threw := true;
          return;
        }
        cached := json.value;
        var again := store.Get(config.key);
        lastSeen := again.GetOr("");
      } else if !config.checkTtlOnlyOnLoad && Expired(cached, now) {
        threw := Set(config.initial, now);
      }
    }
  }

  /**
   * `useStorage(key, initialValue, options)` on `store` (src/index.ts:35-47, 78):
   * a new binding holding what `Mount` gives, or `None` when parsing the stored
   * string throws.
   */
  method UseStorage<T>(store: Store, config: Config<T>) returns (b: Option<Binding<T>>)
    ensures b.None? <==> Mount(store.json, Engine.Get(store.State(), config.key)).None?
    ensures b.Some? ==>
      && fresh(b.value) && b.value.store == store && b.value.config == config
      && b.value.State() == Mount(store.json, Engine.Get(store.State(), config.key)).value
  {
    var raw := store.Get(config.key);
    var start := View(Falsy, "");
    if raw.Some? && raw.value != "" {
      var parsed := store.json.parse(raw.value);
      if parsed.None? {
        return None;
      }
      start := View(parsed.value, "");
    }
    var binding := new Binding(store, config, start);
    b := Some(binding);
  }

  /** The configurations of `bs`, in order. */
  ghost function Configs<T>(bs: seq<Binding<T>>): (cs: seq<Config<T>>)
    ensures |cs| == |bs|
    ensures forall i :: 0 <= i < |bs| ==> cs[i] == bs[i].config
  {
    if bs == [] then [] else Configs(bs[..|bs| - 1]) + [bs[|bs| - 1].config]
  }

  /** The states of `bs`, in order. */
  ghost function States<T>(bs: seq<Binding<T>>): (vs: seq<View>)
    reads set b | b in bs
    ensures |vs| == |bs|
    ensures forall i :: 0 <= i < |bs| ==> vs[i] == bs[i].State()
  {
    if bs == [] then [] else States(bs[..|bs| - 1]) + [bs[|bs| - 1].State()]
  }

  /**
   * Delivering `storageChange.<key>` (src/index.ts:60, 113): the caller runs
   * `check` on every binding of `bindings` listening on `key`, in order, as the
   * engine's `Dispatch` describes.
   */
  method Dispatch<T>(bindings: seq<Binding<T>>, store: Store, key: string, now: int)
    requires forall i :: 0 <= i < |bindings| ==> bindings[i].store == store
    requires forall i, j :: 0 <= i < j < |bindings| ==> bindings[i] != bindings[j]
    modifies set b | b in bindings
    modifies store
    ensures (States(bindings), store.State()) ==
            Engine.Dispatch(Configs(bindings), store.json, key, old(States(bindings)), old(store.State()), now)
  {
    ghost var views := States(bindings);
    ghost var cs := Configs(bindings);
    ghost var w := store.State();
    ghost var done: seq<View> := [];
    var i := 0;
    while i < |bindings|
      invariant i == |done| && Progress(bindings, store, key, now, cs, views, w, done)
    {
      done := Advance(bindings, store, key, now, i, cs, views, w, done);
      i := i + 1;
    }
    assert cs[..i] == cs;
    assert views[..i] == views;
    assert States(bindings) == done;
  }

  /**
   * Delivery has reached the first `|done|` bindings: they hold `done`, the
   * store holds what the engine's `Dispatch` on them gives, the rest are untouched.
   */
  ghost predicate Progress<T>(
    bindings: seq<Binding<T>>, store: Store, key: string, now: int,
    cs: seq<Config<T>>, views: seq<View>, w: World, done: seq<View>)
    reads set b | b in bindings
    reads store
  {
    && |done| <= |bindings| == |cs| == |views|
    && (done, store.State()) == Engine.Dispatch(cs[..|done|], store.json, key, views[..|done|], w, now)
    && (forall j :: 0 <= j < |done| ==> bindings[j].State() == done[j])
    && (forall j :: |done| <= j < |bindings| ==> bindings[j].State() == views[j])
  }

  /** Delivering to the next binding extends the progress by one. */
  method Advance<T>(
    bindings: seq<Binding<T>>, store: Store, key: string, now: int, i: nat,
    ghost cs: seq<Config<T>>, ghost views: seq<View>, ghost w: World, ghost done: seq<View>)
    returns (ghost done': seq<View>)
    requires i < |bindings| == |cs| && i == |done|
    requires forall k :: 0 <= k < |bindings| ==> bindings[k].store == store
    requires forall k, j :: 0 <= k < j < |bindings| ==> bindings[k] != bindings[j]
    requires forall k :: 0 <= k < |cs| ==> cs[k] == bindings[k].config
    requires Progress(bindings, store, key, now, cs, views, w, done)
    modifies bindings[i], store
    ensures |done'| == |done| + 1 && Progress(bindings, store, key, now, cs, views, w, done')
  {
    DispatchNext(cs, store.json, key, views, w, now, i);
    Deliver(bindings[i], key, now);
    done' := done + [bindings[i].State()];
    assert forall j :: 0 <= j < |bindings| && j != i ==> bindings[j] != bindings[i];
  }

  /** Delivering `storageChange.<key>` to one binding in place. */
  method Deliver<T>(b: Binding<T>, key: string, now: int)
    modifies b, b.store
    ensures (b.State(), b.store.State()) == Engine.Deliver(b.config, b.store.json, key, old(b.State()), old(b.store.State()), now)
  {
    if b.config.key == key {
      var _ := b.Check(now);
    }
  }

  /** Dispatching to one more binding is one more delivery, on the world the others left. */
  lemma DispatchNext<T>(cs: seq<Config<T>>, f: Format, key: string, views: seq<View>, w: World, now: int, i: nat)
    requires |cs| == |views| && i < |views|
    ensures var (vs, w1) := Engine.Dispatch(cs[..i], f, key, views[..i], w, now);
      var (v', w') := Engine.Deliver(cs[i], f, key, views[i], w1, now);
      Engine.Dispatch(cs[..i + 1], f, key, views[..i + 1], w, now) == (vs + [v'], w')
  {
    assert cs[..i + 1][..i] == cs[..i];
    assert views[..i + 1][..i] == views[..i];
  }

  /**
   * The page of app.test.tsx:5-12 on objects: two bindings of one key share an
   * empty store; after both render and the second sets `v` and its event is
   * delivered, both expose `v`.
   */
  method TwoBindingsOnOnePage<T>(json: Format, config: Config<T>, v: T, now: int) returns (first: T, second: T)
    requires json.Valid()
    requires config.serializer.encode(v) != config.serializer.encode(config.initial)
    requires RoundTrips(config.serializer, config.initial) && RoundTrips(config.serializer, v)
    ensures first == v && second == v
  {
    Properties.MultipleRendersOnSamePage(config, json, v, now);
    var store := new Store(json);
    var ma := UseStorage(store, config);
    var a := ma.value;
    var _ := a.Render(now);
    var mb := UseStorage(store, config);
    var b := mb.value;
    var _ := b.Render(now);
    var _ := b.Set(v, now);
    Dispatch([a, b], store, config.key, now);
    first, second := a.Value(), b.Value();
  }
}
