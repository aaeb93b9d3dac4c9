/**
 * What the engine promises across several operations: the stored value after a
 * set, idempotence of set, seeding, TTL expiry, and propagation of a write to
 * every binding of the same key in the same context.
 */
module Properties {
  import opened Wrappers
  import opened Codec
  import opened Envelope
  import opened Engine

  /** After a set that did not throw, the stored `value` field is the encoded value. */
  lemma SetStoresValue<T>(c: Config<T>, f: Format, view: View, w: World, v: T, now: int)
    requires f.Valid()
    ensures var r := Set(c, f, view, w, v, now);
      !r.threw ==> StoredValue(f, Get(r.world, c.key)) == Some(Some(c.serializer.encode(v)))
  {
  }

  /**
   * Two sets of the same value: the second never writes or notifies, so together
   * they write and notify at most once, and the binding then exposes the decoded
   * encoding of the value.
   */
  lemma SetIdempotent<T>(c: Config<T>, f: Format, view: View, w: World, v: T, now1: int, now2: int)
    requires f.Valid()
    ensures var s1 := Set(c, f, view, w, v, now1);
      var s2 := Set(c, f, s1.view, s1.world, v, now2);
      && s2.world == s1.world
      && s2.threw == s1.threw
      && |s2.world.events| <= |w.events| + 1
      && s2.view.cached == Next(c.serializer, c.initial, c.ttl, v, now2).AsJson()
      && Value(c, s2.view.cached) == DecodeOr(c.serializer, c.initial, Some(c.serializer.encode(v)))
  {
  }

  /**
   * A render whose cached entry is absent or expired caches the initial value
   * with no expiry, exposes it, and leaves its encoding as the stored `value`
   * field; the next render does nothing.
   */
  lemma RenderSeeds<T>(c: Config<T>, f: Format, view: View, w: World, now: int, later: int)
    requires f.Valid()
    requires NeedsSeed(view.cached, now)
    ensures var r := Render(c, f, view, w, now);
      && r.view == View(Entry(Some(c.serializer.encode(c.initial)), None), view.lastSeen)
      && Value(c, r.view.cached) == DecodeOr(c.serializer, c.initial, Some(c.serializer.encode(c.initial)))
      && (r.threw <==> Truthy(Get(w, c.key)) && f.parse(Get(w, c.key).value).None?)
      && (!r.threw ==> StoredValue(f, Get(r.world, c.key)) == Some(Some(c.serializer.encode(c.initial))))
      && Render(c, f, r.view, r.world, later) == Step(r.view, r.world, false)
  {
  }

  /** A check on a missing key caches nothing and remembers `''`. */
  lemma CheckMissingKey<T>(c: Config<T>, f: Format, view: View, w: World, now: int)
    requires f.Valid()
    requires c.key !in w.items
    ensures Check(c, f, view, w, now) == Step(View(Falsy, ""), w, false)
  {
  }

  /**
   * TTL: a non-initial value set at `t0` with TTL `ttl` is kept until `t0 + ttl`
   * and reverts to the initial value after it, on render, and on a check that
   * sees no new stored string unless TTL is checked only on load.
   */
  lemma TtlExpiry<T>(c: Config<T>, f: Format, view: View, w: World, v: T, t0: int, now: int)
    requires c.ttl != 0 && t0 + c.ttl != 0
    requires c.serializer.encode(v) != c.serializer.encode(c.initial)
    ensures var s := Set(c, f, view, w, v, t0);
      var init := View(Entry(Some(c.serializer.encode(c.initial)), None), view.lastSeen);
      && (now <= t0 + c.ttl ==> Render(c, f, s.view, s.world, now) == Step(s.view, s.world, false))
      && (now > t0 + c.ttl ==> Render(c, f, s.view, s.world, now).view == init)
      && (now > t0 + c.ttl && Get(s.world, c.key) == Some(view.lastSeen) ==>
            Check(c, f, s.view, s.world, now) ==
              if c.checkTtlOnlyOnLoad then Step(s.view, s.world, false)
              else Set(c, f, s.view, s.world, c.initial, now))
  {
  }

  /** Every binding of `key` has either never checked or saw the string now stored. */
  ghost predicate Synced<T>(cs: seq<Config<T>>, key: string, views: seq<View>, w: World)
    requires |cs| == |views|
  {
    forall i :: 0 <= i < |views| && cs[i].key == key ==>
      views[i].lastSeen == "" || Some(views[i].lastSeen) == Get(w, key)
  }

  /** The stored `value` field of a serialised envelope is its payload. */
  lemma StoredValueOfStringify(f: Format, d: Data)
    requires f.Valid()
    ensures StoredValue(f, Some(f.stringify(d))) == Some(Some(d.value))
  {
  }

  /**
   * Dispatching the event for `key` when the stored string is the serialisation
   * of `d` and no listener has seen it yet: every binding of `key` caches `d` and
   * remembers the string, the others are untouched, and nothing is written.
   */
  lemma {:induction false} DispatchAdopts<T>(
    cs: seq<Config<T>>, f: Format, key: string, views: seq<View>, w: World, d: Data, now: int)
    requires f.Valid()
    requires |cs| == |views|
    requires Get(w, key) == Some(f.stringify(d))
    requires forall i :: 0 <= i < |views| && cs[i].key == key ==> views[i].lastSeen != f.stringify(d)
    ensures var r := Dispatch(cs, f, key, views, w, now);
      && r.1 == w
      && forall i :: 0 <= i < |views| ==>
           r.0[i] == if cs[i].key == key then View(d.AsJson(), f.stringify(d)) else views[i]
    decreases |views|
  {
    if views != [] {
      var n := |views| - 1;
      DispatchAdopts(cs[..n], f, key, views[..n], w, d, now);
      StringifyNonEmpty(f, d);
    }
  }

  /**
   * Same-context propagation (src/index.ts:58-60, 113): when binding `k` sets `v`
   * and the write happens, delivering its event makes every binding of that key
   * cache the new envelope and expose what decoding `encode(v)` gives it, leaves
   * bindings of other keys alone, and leaves all of them synced again.
   */
  lemma SameContextPropagation<T>(cs: seq<Config<T>>, f: Format, views: seq<View>, w: World, k: nat, v: T, now: int)
    requires f.Valid()
    requires |cs| == |views| && k < |views|
    requires Synced(cs, cs[k].key, views, w)
    requires Set(cs[k], f, views[k], w, v, now).world != w
    ensures var s := Set(cs[k], f, views[k], w, v, now);
      var key := cs[k].key;
      var e := cs[k].serializer.encode(v);
      var r := Dispatch(cs, f, key, views[k := s.view], s.world, now);
      && r.1 == s.world
      && Synced(cs, key, r.0, r.1)
      && (forall i :: 0 <= i < |views| && cs[i].key == key ==>
            && r.0[i].cached == Next(cs[k].serializer, cs[k].initial, cs[k].ttl, v, now).AsJson()
            && Value(cs[i], r.0[i].cached) == DecodeOr(cs[i].serializer, cs[i].initial, Some(e)))
      && (forall i :: 0 <= i < |views| && cs[i].key != key ==> r.0[i] == views[i])
  {
    var s := Set(cs[k], f, views[k], w, v, now);
    var key := cs[k].key;
    var d := Next(cs[k].serializer, cs[k].initial, cs[k].ttl, v, now);
    var views1 := views[k := s.view];
    assert Get(s.world, key) == Some(f.stringify(d));
    StringifyNonEmpty(f, d);
    StoredValueOfStringify(f, d);
    assert Get(w, key) != Some(f.stringify(d));
    DispatchAdopts(cs, f, key, views1, s.world, d, now);
  }

  /**
   * TTL in the usual flow: a binding whose state is synced sets a non-initial
   * value at `t0` and the write happens; once its own event is delivered, a
   * poll after `t0 + ttl` resets it through `set(initialValue)`, unless TTL is
   * checked only on load, when the poll changes nothing.
   */
  lemma TtlExpiryAfterOwnEvent<T>(c: Config<T>, f: Format, view: View, w: World, v: T, t0: int, now: int)
    requires f.Valid()
    requires c.ttl != 0 && t0 + c.ttl != 0 && now > t0 + c.ttl
    requires c.serializer.encode(v) != c.serializer.encode(c.initial)
    requires view.lastSeen == "" || Some(view.lastSeen) == Get(w, c.key)
    requires Set(c, f, view, w, v, t0).world != w
    ensures var s := Set(c, f, view, w, v, t0);
      var r := Dispatch([c], f, c.key, [s.view], s.world, t0);
      && r.1 == s.world
      && r.0[0].cached == Next(c.serializer, c.initial, c.ttl, v, t0).AsJson()
      && Check(c, f, r.0[0], r.1, now) ==
           if c.checkTtlOnlyOnLoad then Step(r.0[0], r.1, false)
           else Set(c, f, r.0[0], r.1, c.initial, now)
  {
    var s := Set(c, f, view, w, v, t0);
    var d := Next(c.serializer, c.initial, c.ttl, v, t0);
    SameContextPropagation([c], f, [view], w, 0, v, t0);
    assert [view][0 := s.view] == [s.view];
    var r := Dispatch([c], f, c.key, [s.view], s.world, t0);
    assert Get(r.1, c.key) == Some(r.0[0].lastSeen);
    assert Expired(r.0[0].cached, now);
  }

  /**
   * A binding whose last-seen string is stale never reconciles (src/index.ts:58,
   * 82, 86). Binding A checks and remembers the serialisation `z` of `e1`; an
   * outside write stores `y`, the serialisation of `e2`, with no event; A sets a
   * value encoding to `e2`, which is suppressed, so A caches it but still
   * remembers `z`. Binding B then sets a value encoding to `e1`, which writes
   * `z`. On delivery A finds `z` stored and keeps showing its own value while B
   * shows B's, and every later check on A changes nothing. Before B's set the
   * two bindings are not `Synced`.
   */
  lemma StaleLastSeenDiverges<T>(c: Config<T>, f: Format, a: View, b: View, w: World, v1: T, v2: T, now: int, later: int)
    requires f.Valid()
    requires c.ttl == 0
    requires RoundTrips(c.serializer, v1) && RoundTrips(c.serializer, v2)
    requires c.serializer.encode(v1) != c.serializer.encode(v2)
    requires Get(w, c.key) == Some(f.stringify(Data(c.serializer.encode(v1), None)))
    requires a.lastSeen != f.stringify(Data(c.serializer.encode(v1), None))
    ensures var z := f.stringify(Data(c.serializer.encode(v1), None));
      var y := f.stringify(Data(c.serializer.encode(v2), None));
      var a1 := Check(c, f, a, w, now);
      var w1 := World(w.items[c.key := y], w.events);
      var a2 := Set(c, f, a1.view, w1, v2, now);
      var b2 := Set(c, f, b, a2.world, v1, now);
      var r := Dispatch([c, c], f, c.key, [a2.view, b2.view], b2.world, now);
      && a1 == Step(View(Entry(Some(c.serializer.encode(v1)), None), z), w, false)
      && a2.world == w1 && !a2.threw
      && !Synced([c, c], c.key, [a2.view, b], w1)
      && b2.world == World(w1.items[c.key := z], w1.events + [EventName(c.key)])
      && r.1 == b2.world
      && Value(c, r.0[0].cached) == v2 && Value(c, r.0[1].cached) == v1
      && Check(c, f, r.0[0], r.1, later) == Step(r.0[0], r.1, false)
  {
    var e1 := c.serializer.encode(v1);
    var e2 := c.serializer.encode(v2);
    var z := f.stringify(Data(e1, None));
    var y := f.stringify(Data(e2, None));
    StringifyNonEmpty(f, Data(e1, None));
    StringifyNonEmpty(f, Data(e2, None));
    StoredValueOfStringify(f, Data(e1, None));
    StoredValueOfStringify(f, Data(e2, None));
    assert z != y by {
      assert f.parse(z) != f.parse(y);
    }
    var a2 := Set(c, f, Check(c, f, a, w, now).view, World(w.items[c.key := y], w.events), v2, now);
    assert [a2.view, b][0].lastSeen == z;
  }

  /**
   * app.test.tsx:5-12: on an empty store the first binding of a page mounts
   * and seeds it, the second mounts from the seeded entry, so both show the
   * initial value after one event; setting a value on the second and
   * delivering its event shows that value in both.
   */
  lemma MultipleRendersOnSamePage<T>(c: Config<T>, f: Format, v: T, now: int)
    requires f.Valid()
    requires c.serializer.encode(v) != c.serializer.encode(c.initial)
    requires RoundTrips(c.serializer, c.initial) && RoundTrips(c.serializer, v)
    ensures var w0 := World(map[], []);
      var a := Render(c, f, Mount(f, Get(w0, c.key)).value, w0, now);
      var mb := Mount(f, Get(a.world, c.key));
      && mb.Some?
      && var b := Render(c, f, mb.value, a.world, now);
      var click := Set(c, f, b.view, b.world, v, now);
      var r := Dispatch([c, c], f, c.key, [a.view, click.view], click.world, now);
      && Value(c, a.view.cached) == c.initial && Value(c, b.view.cached) == c.initial
      && |b.world.events| == 1
      && |click.world.events| == 2
      && Value(c, r.0[0].cached) == v && Value(c, r.0[1].cached) == v
  {
    var w0 := World(map[], []);
    var ma := Mount(f, Get(w0, c.key)).value;
    var a := Render(c, f, ma, w0, now);
    var d0 := Next(c.serializer, c.initial, c.ttl, c.initial, now);
    assert a.world.items[c.key] == f.stringify(d0);
    StringifyNonEmpty(f, d0);
    var mb := Mount(f, Get(a.world, c.key)).value;
    assert mb == View(d0.AsJson(), "");
    var b := Render(c, f, mb, a.world, now);
    StoredValueOfStringify(f, d0);
    var click := Set(c, f, b.view, b.world, v, now);
    assert click.world != b.world;
    SameContextPropagation([c, c], f, [a.view, b.view], b.world, 1, v, now);
    assert [a.view, b.view][1 := click.view] == [a.view, click.view];
  }

  /**
   * app.test.tsx:14-23: a string written into the store from outside, with no
   * event, is picked up by the binding's next polling check, which then exposes
   * the written value.
   */
  lemma ExternalWriteObserved<T>(c: Config<T>, f: Format, view: View, w: World, d: Data, now: int)
    requires f.Valid()
    requires view.lastSeen != f.stringify(d)
    ensures var w' := World(w.items[c.key := f.stringify(d)], w.events);
      var r := Check(c, f, view, w', now);
      && r == Step(View(d.AsJson(), f.stringify(d)), w', false)
      && Value(c, r.view.cached) == DecodeOr(c.serializer, c.initial, Some(d.value))
  {
  }
}
