/**
 * The synchronisation engine of `useStorage` (src/index.ts:35-127) as transition
 * functions on values. A binding's own state is a `View`, the storage of its
 * context with its in-context event log is a `World`; each operation yields a
 * `Step`. The classes in module Hook perform these steps in place.
 */
module Engine {
  import opened Wrappers
  import opened Codec
  import opened Envelope

  /**
   * What `useStorage(key, initialValue, options)` is given. `ttl` is 0 when the
   * option is absent: an absent TTL and a TTL of 0 are both falsy.
   */
  datatype Config<!T> = Config(
    key: string,
    initial: T,
    serializer: Serializer<T>,
    ttl: int,
    checkTtlOnlyOnLoad: bool)

  /** The key-value store of one context and the `storageChange.<key>` events dispatched in it, in order. */
  datatype World = World(items: map<string, string>, events: seq<string>)

  /** One binding's state: its cached JSON (the React state `value`) and `lastValueRef.current`. */
  datatype View = View(cached: Json, lastSeen: string)

  /** The state after an operation, and whether the operation threw (a `JSON.parse` failure). */
  datatype Step = Step(view: View, world: World, threw: bool)

  /** The in-context event a write dispatches. */
  function EventName(key: string): string {
    "storageChange." + key
  }

  /** `storage.get(key)`: `None` stands for null. */
  function Get(w: World, key: string): (r: Option<string>)
    ensures r.Some? <==> key in w.items
    ensures r.Some? ==> r.value == w.items[key]
  {
    if key in w.items then Some(w.items[key]) else None
  }

  /** A raw stored string that JavaScript treats as true: present and not empty. */
  predicate Truthy(raw: Option<string>) {
    raw.Some? && raw.value != ""
  }

  /**
   * `oldValue?.value` for the raw string `oldEncodedValue` (src/index.ts:56-58):
   * `None` when `JSON.parse` throws, `Some(None)` when there is no string `value`
   * field (no entry, an empty string, a falsy JSON value, or a truthy one without it).
   */
  function StoredValue(f: Format, raw: Option<string>): Option<Option<string>> {
    if !Truthy(raw) then Some(None)
    else
      match f.parse(raw.value)
      case None => None
      case Some(Falsy) => Some(None)
      case Some(Entry(value, _)) => Some(value)
  }

  /**
   * `wrappedSet(v)` at time `now` (src/index.ts:49-62): the binding caches the new
   * envelope in every case; unless parsing the stored string throws, it writes the
   * serialised envelope under its key and dispatches exactly one event when the
   * stored `value` field is not already `encode(v)`, and otherwise changes nothing.
   */
  function Set<T>(c: Config<T>, f: Format, view: View, w: World, v: T, now: int): (r: Step)
    ensures r.view == View(Next(c.serializer, c.initial, c.ttl, v, now).AsJson(), view.lastSeen)
    ensures r.threw <==> StoredValue(f, Get(w, c.key)).None?
    ensures r.world != w <==> !r.threw && StoredValue(f, Get(w, c.key)) != Some(Some(c.serializer.encode(v)))
    ensures r.world != w ==>
      r.world == World(w.items[c.key := f.stringify(Next(c.serializer, c.initial, c.ttl, v, now))],
                       w.events + [EventName(c.key)])
  {
    var next := Next(c.serializer, c.initial, c.ttl, v, now);
    var view' := View(next.AsJson(), view.lastSeen);
    match StoredValue(f, Get(w, c.key))
    case None => Step(view', w, true)
    case Some(stored) =>
      if stored != Some(next.value) then
        Step(view', World(w.items[c.key := f.stringify(next)], w.events + [EventName(c.key)]), false)
      else Step(view', w, false)
  }

  /** Whether a render must seed: no cached entry, or one whose expiry has passed (src/index.ts:65-70). */
  predicate NeedsSeed(cached: Json, now: int) {
    cached.Falsy? || Expired(cached, now)
  }

  /**
   * The seeding block of a render at time `now`: a `wrappedSet(initialValue)` when
   * the cached entry is absent or expired, which leaves the initial value cached
   * with no expiry; otherwise nothing happens.
   */
  function Render<T>(c: Config<T>, f: Format, view: View, w: World, now: int): (r: Step)
    ensures NeedsSeed(view.cached, now) ==>
      r.view == View(Entry(Some(c.serializer.encode(c.initial)), None), view.lastSeen)
    ensures NeedsSeed(view.cached, now) ==> r.world == Set(c, f, view, w, c.initial, now).world
    ensures NeedsSeed(view.cached, now) ==> r.threw == Set(c, f, view, w, c.initial, now).threw
    ensures !NeedsSeed(view.cached, now) ==> r == Step(view, w, false)
  {
    if NeedsSeed(view.cached, now) then Set(c, f, view, w, c.initial, now)
    else Step(view, w, false)
  }

  /** `decodedValue` (src/index.ts:71-77): the decoded cached payload, or the initial value. */
  function Value<T>(c: Config<T>, cached: Json): (r: T)
    ensures cached.Entry? && cached.value.Some? && c.serializer.decode(cached.value.value).Some? ==>
      r == c.serializer.decode(cached.value.value).value
    ensures cached.Falsy? || cached.value.None? || c.serializer.decode(cached.value.value).None? ==>
      r == c.initial
  {
    DecodeOr(c.serializer, c.initial, if cached.Entry? then cached.value else None)
  }

  /** `JSON.parse(item || 'null')` (src/index.ts:84). */
  function ParseItem(f: Format, item: Option<string>): Option<Json> {
    f.parse(if Truthy(item) then item.value else "null")
  }

  /**
   * `check` at time `now` (src/index.ts:80-94): when the stored string is not the
   * last one seen, adopt its parse and remember it (`''` for a missing key);
   * otherwise, unless TTL is checked only on load, reset an expired entry.
   */
  function Check<T>(c: Config<T>, f: Format, view: View, w: World, now: int): (r: Step)
    ensures Get(w, c.key) != Some(view.lastSeen) ==> r.world == w
    ensures Get(w, c.key) != Some(view.lastSeen) ==> (r.threw <==> ParseItem(f, Get(w, c.key)).None?)
    ensures Get(w, c.key) != Some(view.lastSeen) && r.threw ==> r.view == view
    ensures Get(w, c.key) != Some(view.lastSeen) && !r.threw ==>
      r.view == View(ParseItem(f, Get(w, c.key)).value, Get(w, c.key).GetOr(""))
    ensures Get(w, c.key) == Some(view.lastSeen) && !c.checkTtlOnlyOnLoad && Expired(view.cached, now) ==>
      r == Set(c, f, view, w, c.initial, now)
    ensures Get(w, c.key) == Some(view.lastSeen) && (c.checkTtlOnlyOnLoad || !Expired(view.cached, now)) ==>
      r == Step(view, w, false)
  {
    var item := Get(w, c.key);
    if item != Some(view.lastSeen) then
      match ParseItem(f, item)
      case None => Step(view, w, true)
      case Some(json) => Step(View(json, item.GetOr("")), w, false)
    else if !c.checkTtlOnlyOnLoad && Expired(view.cached, now) then
      Set(c, f, view, w, c.initial, now)
    else
      Step(view, w, false)
  }

  /**
   * The state a binding starts with (src/index.ts:43-47, 78): the parse of the
   * stored string, nothing for a missing or empty one, and `''` as the last
   * string seen; `None` when parsing throws.
   */
  function Mount(f: Format, raw: Option<string>): (r: Option<View>)
    ensures !Truthy(raw) ==> r == Some(View(Falsy, ""))
    ensures Truthy(raw) ==> (r.None? <==> f.parse(raw.value).None?)
    ensures Truthy(raw) && r.Some? ==> r.value == View(f.parse(raw.value).value, "")
  {
    if !Truthy(raw) then Some(View(Falsy, ""))
    else
      match f.parse(raw.value)
      case None => None
      case Some(json) => Some(View(json, ""))
  }

  /** Delivering `storageChange.<key>` to one binding: it checks only when it listens on `key`. */
  function Deliver<T>(c: Config<T>, f: Format, key: string, view: View, w: World, now: int): (r: (View, World))
    ensures c.key == key ==> r == (Check(c, f, view, w, now).view, Check(c, f, view, w, now).world)
    ensures c.key != key ==> r == (view, w)
  {
    if c.key == key then
      var s := Check(c, f, view, w, now);
      (s.view, s.world)
    else (view, w)
  }

  /**
   * Delivering `storageChange.<key>` in one context: every binding listening on
   * that key, in order, runs `check`; bindings of other keys do not listen. A
   * listener that throws does not stop the others.
   */
  function Dispatch<T>(cs: seq<Config<T>>, f: Format, key: string, views: seq<View>, w: World, now: int)
    : (r: (seq<View>, World))
    requires |cs| == |views|
    ensures |r.0| == |views|
    ensures forall i :: 0 <= i < |views| && cs[i].key != key ==> r.0[i] == views[i]
    ensures (forall i :: 0 <= i < |views| ==> cs[i].key != key) ==> r.1 == w
    decreases |views|
  {
    if views == [] then ([], w)
    else
      var n := |views| - 1;
      var (vs, w1) := Dispatch(cs[..n], f, key, views[..n], w, now);
      var (v', w') := Deliver(cs[n], f, key, views[n], w1, now);
      (vs + [v'], w')
  }

  /**
   * The polling period (src/index.ts:121-124): `false` disables polling, and an
   * absent or zero interval polls every 1000 ms.
   */
  datatype Polling = Off | Unset | Every(ms: int)

  function PollingPeriod(p: Polling): (r: Option<int>)
    ensures r.None? <==> p.Off?
    ensures r.Some? ==> r.value != 0
    ensures p.Every? && p.ms != 0 ==> r == Some(p.ms)
    ensures p.Unset? || p == Every(0) ==> r == Some(1000)
  {
    match p
    case Off => None
    case Unset => Some(1000)
    case Every(ms) => Some(if ms != 0 then ms else 1000)
  }
}
