# use-synced-storage: the synchronisation engine, in Dafny

`createUseStorage(storage)` (src/index.ts) returns a React hook
`useStorage(key, initialValue, options)`. The hook binds a component's
state to one key of a key→string store. It keeps every binding of that key
consistent and supports an optional time-to-live.

This project models the hook's engine:

- **Wrapping a value.** The payload codec encodes the value. The result is
  wrapped in an envelope `{value, expires?}`, and `expires` is `now + ttl`
  only for values that differ from the initial value.
- **Deduplicated write.** The envelope is written to the store, and
  `storageChange.<key>` is dispatched, only when the stored `value` field
  changes.
- **Render-time seeding.** A render writes the initial value when the cached
  entry is absent or expired.
- **Exposed value.** The decoded payload, falling back to the initial value.
- **`check`.** Reconciles the binding with the store. The storage event, the
  per-key event and the polling timer all run it.

The model has two layers.

- **Pure layer.** Module `Engine` defines each operation as a function from a
  binding's own state (`View`: the cached JSON and the last raw string seen)
  and its context's store (`World`: the items and the log of dispatched
  events) to a `Step`.
- **Imperative layer.** Module `Hook` has a `Store` class (the storage
  adapter) and a `Binding` class (one `useStorage` call, with the React state
  and ref as fields). Each method is proved to perform the matching `Engine`
  step in place.

Module `Properties` proves the engine's promises across several operations:

- the stored value after a set;
- idempotence of set;
- seeding;
- TTL expiry;
- propagation of a write to every binding of the key;
- the page-level test scenarios.

Where the code raises an exception, the model says so. A `JSON.parse` of a
stored string can throw in three places (src/index.ts:46, 57, 84). The model
returns this as `threw`, or as `None`, and never falls back silently: a
parse failure throws, and the model never treats it as a missing entry.

Outside the code:

- The payload codec is a pair of functions, `Codec.Serializer`. Its `decode`
  returns `None` when it throws.
- The host's `JSON.stringify` and `JSON.parse` of envelopes are a pair of
  functions, `Envelope.Format`. They are constrained only by `Format.Valid`:
  - `parse` undoes `stringify`;
  - `parse("null")` is null;
  - `parse("")` throws.
- `Date.now()` is the parameter `now`.
- Delivering an event runs `check` on each listening binding. This is done
  by `Dispatch`, which the caller invokes.

## Model

| member | source | states |
|---|---|---|
| Envelope.Next | src/index.ts:50-53 | the new envelope's `value` is `encode(v)`; it has an expiry exactly when the TTL is non-zero and `encode(v)` differs from `encode(initialValue)`, and that expiry is `now + ttl`; so the initial value gets no expiry (a reset clears the TTL) |
| Engine.Set | src/index.ts:48-62 | the binding caches the new envelope in every case, even a suppressed or failed write; the set throws exactly when the stored string is non-empty and does not parse; the store and event log change exactly when it does not throw and the stored `value` field is not `encode(v)`, and then only this key is set to the serialised envelope and exactly one `storageChange.<key>` is appended |
| Engine.Render | src/index.ts:65-70 | when the cached entry is absent or has a non-zero expiry that has passed, the initial value is cached with no expiry, and the store changes and the render throws exactly as `set(initialValue)` does; otherwise nothing changes |
| Engine.Value | src/index.ts:71-77 | the exposed value is the decoded cached `value` field when there is one and decoding succeeds, and the initial value otherwise, including when no entry is cached |
| Engine.Check | src/index.ts:80-94 | when the stored string is not the last one seen: the store is untouched, it throws exactly when `JSON.parse(item || 'null')` throws, in which case the cached entry and last-seen string are kept, and otherwise it caches that parse and remembers the stored string (or `''`); when it is the last one seen and TTL is checked periodically and the cached expiry has passed, it is `set(initialValue)`; otherwise nothing changes |
| Engine.Mount | src/index.ts:43-47 | a new binding caches nothing for a missing or empty stored string and the parse of any other; it fails exactly when that parse throws; its last-seen string starts as `''` |
| Engine.Deliver | src/index.ts:113 | a binding listening on the event's key runs `check`; a binding of another key and the store are left as they are |
| Engine.Dispatch | src/index.ts:112-117 | delivering the event gives one resulting state per binding, in order; bindings of other keys are left as they were, and when no binding listens on the key the store is untouched |
| Engine.PollingPeriod | src/index.ts:120-124 | polling is off exactly when the option is `false`; the period is never 0; a non-zero interval is used as given; an absent or zero interval gives 1000 ms |
| Codec.DecodeOr | src/index.ts:72-76 | decoding a payload gives the decoded value, and gives the initial value when there is no payload or decoding throws |
| Properties.SetStoresValue | src/index.ts:56-61 | after a set that does not throw, the stored `value` field is `encode(v)`, whether the write happened or was suppressed |
| Properties.SetIdempotent | src/index.ts:55-61 | two consecutive sets of the same value: the second never writes, never notifies and throws exactly when the first did; together they append at most one event; afterwards the binding caches the second envelope and exposes `decode(encode(v))` |
| Properties.RenderSeeds | src/index.ts:65-70 | a seeding render caches `{value: encode(initialValue)}` with no expiry and exposes its decoding; it throws exactly when the stored string does not parse; otherwise it leaves `encode(initialValue)` as the stored `value` field; the next render, at any time, changes nothing |
| Properties.CheckMissingKey | src/index.ts:81-86 | a check on a missing key caches nothing, remembers `''`, does not throw and leaves the store alone |
| Properties.TtlExpiry | src/index.ts:87-93 | a non-initial value set at `t0` under a TTL is kept by renders up to `t0 + ttl`; after that a render resets it to the initial value, and a check that sees no new stored string resets it through `set(initialValue)`, unless `checkTtlOnlyOnLoad` is set, in which case the check changes nothing |
| Properties.TtlExpiryAfterOwnEvent | src/index.ts:58-93 | a synced binding that sets a non-initial value under a TTL and writes it, once its own event is delivered, caches that envelope; a poll after `t0 + ttl` then resets it through `set(initialValue)`, or changes nothing when `checkTtlOnlyOnLoad` is set |
| Properties.StaleLastSeenDiverges | src/index.ts:56-86 | after a binding remembers `z`, an outside write of `y` and a suppressed set by that binding, a second binding's write of `z` leaves the first showing its own value and the second the other, and every later check on the first changes nothing; before the second write the bindings are not synced |
| Properties.StoredValueOfStringify | src/index.ts:56-58 | the `value` field read back from a serialised envelope is that envelope's payload |
| Properties.DispatchAdopts | src/index.ts:82-86 | when the stored string serialises `d` and no listening binding has seen it, delivery makes every binding of the key cache `d` and remember the string; bindings of other keys and the store are untouched |
| Properties.SameContextPropagation | src/index.ts:58-60 | when a binding's set writes, and every binding of the key has either never checked or last saw the previous stored string, delivering the event makes each of them cache the writer's envelope and expose its own decoding of `encode(v)`; bindings of other keys are unchanged, nothing more is written, and all are synced again |
| Properties.MultipleRendersOnSamePage | example/cra/src/app.test.tsx:5-12 | on an empty store the first of two bindings of a page seeds it and the second mounts from the seeded entry (one event in all); both show the initial value; after the second sets `v` and its event is delivered, both show `v` |
| Properties.ExternalWriteObserved | example/cra/src/app.test.tsx:14-23 | an envelope written into the store from outside, with no event, is adopted by the binding's next polling check, which then exposes its decoded payload without writing |
| Hook.Store.Get | src/index.ts:20 | reading a key returns its stored string, or nothing when it is missing |
| Hook.Store.Put | src/index.ts:21 | writing a key changes only that key and dispatches nothing |
| Hook.Store.DispatchEvent | src/index.ts:60 | dispatching appends the event to the context's log and leaves the items alone |
| Hook.Binding.Set | src/index.ts:48-64 | the in-place `wrappedSet` leaves the binding, the store and the event log exactly as `Engine.Set` says |
| Hook.Binding.Render | src/index.ts:65-77 | the in-place seeding leaves the state as `Engine.Render` says; it returns the exposed value, or nothing when the seeding set threw |
| Hook.Binding.Check | src/index.ts:80-101 | the in-place `check` leaves the binding, the store and the event log exactly as `Engine.Check` says |
| Hook.UseStorage | src/index.ts:35-47 | a fresh binding on the given store and options, holding what `Engine.Mount` gives, or nothing when the stored string does not parse |
| Hook.Deliver | src/index.ts:113 | delivering the event in place to one binding leaves it and the store as `Engine.Deliver` says |
| Hook.Dispatch | src/index.ts:111-117 | running `check` in place on each binding of a list that shares one store leaves the bindings and the store as `Engine.Dispatch` says |
| Hook.TwoBindingsOnOnePage | example/cra/src/app.test.tsx:5-12 | with objects: two bindings of one key on a fresh store render, the second sets `v`, and after its event is delivered both expose `v` |

The test at example/cra/src/app.test.tsx:25-35 renders the two apps in one
document. They share one store and one event target, so it is the same-context
case of `SameContextPropagation` and `MultipleRendersOnSamePage`.

Propagation and polling rely on every binding of a key remembering either
`''` or the string currently stored (`Properties.Synced`). A suppressed set
(src/index.ts:58) caches a new entry but does not update `lastValueRef`, and
`check` compares only raw strings (src/index.ts:82). So after an outside write
with no event, a binding can remember a string that is no longer stored. When
another binding later writes that same string, the first binding's `check`
sees nothing new and keeps a value the store no longer holds, for good.
`Properties.StaleLastSeenDiverges` proves such a run.

Setting the same non-initial value again refreshes the binding's cached expiry
but not the stored one, because the write is suppressed when the `value` field
is unchanged (src/index.ts:58). `Engine.Set` states this: the world is
unchanged in that case.

## Left out

- React machinery is not modelled. This covers `useState`, `useMemo`, `useCallback`, `useRef` and re-render scheduling. The state is explicit fields, and every operation is a method call.
- A render that calls `setValue` is retried by React, and only the retry is shown. `Render` therefore exposes the value from the state after seeding.
- `check` and `wrappedSet` are closures over the last render's state. The model assumes that a re-render happened before each event, so every call sees the current state.
- Registering and removing listeners is not modelled (src/index.ts:104-117). Neither are `setInterval` and `clearInterval` (src/index.ts:120-126). They are event-loop plumbing: the caller invokes `Check`, `Dispatch` delivers an event in one context, and `PollingPeriod` only computes the period.
- The browser's cross-tab `storage` event is platform behaviour. A change from another context is modelled as a store write followed by the caller's check.
- `JSON.stringify` and `JSON.parse` are not implemented. They are the host's, and `Format.Valid` states what the model relies on.
- `Envelope.Json` keeps only the two fields the engine reads. A non-numeric `expires` in a stored JSON value is not modelled.
- Custom serializers are not called with `undefined`. Code that decodes `undefined` is modelled as a decoding failure, which exposes the initial value. For the default JSON codec this matches, because `JSON.parse(undefined)` throws.
- Envelope.Json and Engine.Value treat a stored `value` field that is not a string as absent, so the model exposes the initial value. The code passes such a field to `serializer.decode` as it is (src/index.ts:73). For the default codec, a stored `{"value":5}` gives `JSON.parse(5)`, that is 5, and `null` or `true` likewise decode to themselves. The model's decoder takes only strings, so these values are not modelled.
- Dispatch: events are modelled per store, not on the shared `document`. The code dispatches and listens for `storageChange.<key>` on `document` (src/index.ts:60, 113), which every store made by `createUseStorage` shares. So a localStorage write also runs `check` in sessionStorage bindings of the same key. `Dispatch` covers only bindings that share one store.
- Dispatch: an event fired inside a listener is delivered later, not nested. `dispatchEvent` is synchronous: an event fired while a listener runs (the TTL reset at src/index.ts:93) reaches every listener before the outer event's remaining listeners run. The model only appends that event to the log, for the caller to deliver afterwards, so this nested ordering is not captured.
- Numbers are unbounded integers. NaN, fractional values and floating-point rounding of `now + ttl` are not modelled.
- A binding's configuration is fixed for its whole life (`Hook.Binding.config`). In the code, the key, the initial value and the options are render arguments that may change between renders (src/index.ts:63, 95-101, 117, 126). After a key change, the binding keeps the previous key's cached envelope and `lastValueRef` until its next check; this is not modelled.
- `Date.now()` is one `now` per operation. The calls during a render and its seeding set are taken to happen at the same instant.
- Exceptions from the backing store are not modelled. A storage quota error, for example, propagates unchanged in the code.
- `useLocalStorage` and `useSessionStorage` (src/index.ts:132-140) are not modelled. They only bind the two browser stores.
- The demo app (example/cra/src/app.tsx) and the install script (install-example-if-needed.js) are not part of this model. The tests are used only as scenarios.
