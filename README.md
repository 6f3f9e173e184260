# Fixed-window rate limiter: the in-memory adapter and the `Limiter` facade

This project is a Dafny model of the in-memory fixed-window rate-limit adapter of
node-ratelimiter. It also models the `Limiter` class that configures the adapter and
delegates to it. The model proves what the adapter's operations do to the shared
dictionary.

- **Adapter** (`memory.dfy`, module `Memory`). One factory call (`AdapterFactory`) owns
  one dictionary (`Store.dict`, a `map` from key to window entry). Every adapter the
  factory makes (`AdapterFactory.Make`) reads and writes that same dictionary.
  - An entry is `{remaining, total, reset}`. The model keeps `reset` as an integer
    instant in milliseconds (`resetMs`). The seconds value the adapter reports is
    `ResetSeconds`.
  - `Adapter.NewHit` consumes a call. `Adapter.Get` only looks. Both update the
    dictionary in place. They are proved to follow the functions `HitStep` and
    `PeekStep`, and the lemmas about the behaviour are stated over those functions.
  - `Hits` runs a sequence of hits. The lemmas about runs cover the count-down, the
    exhausted state and the invariant `0 <= remaining <= total == max`.
- **Facade** (`limiter.dfy`, module `RateLimiter`).
  - `Configure` makes the constructor's decisions: the required identifier, the
    truthiness defaults 2500 and 3600000, and the `db` option replacing the injected
    factory.
  - `Limiter.Create` is the constructor itself. It builds the adapter once, from the
    stored fields, which are `const`.
  - `Limiter.Get` and `Limiter.NewHit` delegate to the adapter. `Inspect` gives the
    diagnostic text, and `ParseInspect` reads the three fields back out of it.
- **Decimal text** (`decimal.dfy`). Integers are written as a template literal writes
  them. The file also has the parser `ParseInt`, with a round-trip proof.
- **Scenarios** (`scenarios.dfy`). Client methods replay, through the classes, the value
  sequences that `src/adapters/memory.spec.js` expects. They use the string keys of
  those tests under the model's key abstraction (see "## Left out"). The source as
  written calls the key as a function, so with a string key those calls reject.

Time is a parameter `now`, in integer milliseconds. `Date.now()` is not modelled.

Two behaviours of the adapter code are modelled as written:
- The hit that creates a window does not decrement (src/adapters/memory.js:27-29). The first
  `newHit` on a key returns `remaining == max` (`HitCreatesFull`).
- `newHit` tests exhaustion (src/adapters/memory.js:31) before it tests expiry
  (src/adapters/memory.js:35). An exhausted window is therefore returned unchanged even after
  its reset instant (`HitLeavesExhausted`, `ExhaustedIsStuck`, `CountDownThenStuck`,
  `ExhaustedPastResetExample`). Only `get`, which has no exhaustion test, rolls such a
  window over (`PeekReopensExhausted`).

## Model

| member | source | states |
|---|---|---|
| `Memory.HitStep` | src/adapters/memory.js:23-41 | `newHit` stores its result under its own key and leaves every other key as it was. It never changes `total`. `remaining` never grows, except when it is refilled to `max`. |
| `Memory.PeekStep` | src/adapters/memory.js:43-56 | `get` stores its result under its own key and leaves every other key as it was. It keeps `total`. `remaining` stays as it was, or is refilled to `max`. |
| `Memory.Create` | src/adapters/memory.js:5-13 | A new window is full (`remaining == total == max`) and ends `duration` ms after `now`. For `max >= 0` it satisfies `0 <= remaining <= total == max`. For `duration >= 0` it has not expired at its creation instant. |
| `Memory.Rollover` | src/adapters/memory.js:15-20 | A rolled-over window is refilled to `max` and ends `duration` ms after `now`. It keeps `total`. For `duration >= 0` it has not expired at `now`. |
| `Memory.Expired` | src/adapters/memory.js:35 | The millisecond test `resetMs != 0 && now > resetMs` holds exactly when the source's seconds test `reset && now / 1000 > reset` holds, in exact arithmetic. A zero reset never expires. |
| `Memory.HitCreatesFull` | src/adapters/memory.js:27-29 | A hit on a missing key returns `{remaining: max, total: max, reset: now + duration}`. The creating hit does not decrement. |
| `Memory.HitDecrementsLive` | src/adapters/memory.js:39-40 | On a live, unexpired window, a hit takes exactly one call off `remaining`. Nothing else in the dictionary changes. |
| `Memory.HitLeavesExhausted` | src/adapters/memory.js:31-33 | A hit on a window with `remaining <= 0` returns it unchanged and leaves the whole dictionary as it was. This holds even when the reset instant has passed. |
| `Memory.HitRollsOver` | src/adapters/memory.js:35-37 | A hit on an expired, non-exhausted window sets `remaining = max` and `reset = now + duration`. It does not decrement, and `total` is kept. |
| `Memory.PeekNeverConsumes` | src/adapters/memory.js:43-56 | `get` creates a full window, or rolls an expired one over. Otherwise it returns the stored entry with the dictionary untouched. It never decrements. |
| `Memory.PeekIdempotent` | src/adapters/memory.js:43-56 | Two `get`s at the same instant return the same entry and leave the same dictionary. |
| `Memory.PeekReopensExhausted` | src/adapters/memory.js:51-53 | `get` rolls an exhausted, expired window over to `max`. The hit after it then returns `max - 1`. |
| `Memory.NewWindowResetDistance` | src/adapters/memory.js:5-20 | For a window stamped at `now`, `reset * 1000 - now == duration`. For a positive duration, `0 < reset - now/1000 <= duration/1000` seconds. |
| `Memory.FreshStampsReset` | src/adapters/memory.js:5-20 | Creation and rollover, through either operation, stamp the reset instant at `now + duration`. |
| `Memory.StepsKeepWindowValid` | src/adapters/memory.js:23-56 | For `max >= 0`, each operation keeps `0 <= remaining <= total == max` for its own window. |
| `Memory.StepsKeepNoneNegative` | src/adapters/memory.js:23-56 | No count in the shared dictionary goes negative. This holds for any mix of adapters whose maxima are non-negative. |
| `Memory.Hits` | src/adapters/memory.js:23-41 | A run of hits returns one entry per hit. It changes no other key, and the last result is what is stored. |
| `Memory.HitsAppend` | src/adapters/memory.js:23-41 | A run split in two equals its second part run on the dictionary the first part left. `CountDownThenStuck` joins a count-down to a stuck tail with it. |
| `Memory.HitsCountDownLive` | src/adapters/memory.js:31-40 | Hits before the reset instant count down by one each and stop at 0. `total` and `reset` stay as they are. |
| `Memory.HitsCountDownFresh` | src/adapters/memory.js:27-40 | On a fresh key with no expiry, the k-th hit returns `remaining == max(max - (k - 1), 0)`, `total == max` and the first hit's reset. |
| `Memory.ExhaustedIsStuck` | src/adapters/memory.js:31-37 | Once a window is exhausted, no run of hits changes the dictionary or the returned entry, however late the hits come. |
| `Memory.CountDownThenStuck` | src/adapters/memory.js:27-40 | On a fresh key, `max + 1` hits within the window exhaust it. Every later hit, however late, returns `{remaining: 0, total: max}` with the first hit's reset. |
| `Memory.HitsKeepWindowValid` | src/adapters/memory.js:23-41 | Along any run of one adapter's hits with `max >= 0`, every result satisfies `0 <= remaining <= total == max`. |
| `Memory.ExhaustedPastResetExample` | src/adapters/memory.js:31-37 | With maximum 2 and a 1000 ms window, hits at 0, 1 and 2 ms return 2, 1, 0. A hit at 5000 ms returns the expired, exhausted window unchanged. |
| `Memory.Store.constructor` | src/adapters/memory.js:2 | The dictionary starts empty. |
| `Memory.AdapterFactory.constructor` | src/adapters/memory.js:1-2 | Each factory call owns a new, empty dictionary. |
| `Memory.AdapterFactory.Make` | src/adapters/memory.js:4-22 | An adapter made by a factory works on that factory's dictionary, with the given key, maximum and duration. |
| `Memory.Adapter.constructor` | src/adapters/memory.js:4 | An adapter is bound to its dictionary, key, maximum and duration. |
| `Memory.Adapter.NewHit` | src/adapters/memory.js:23-41 | The new dictionary and the returned entry are exactly those `HitStep` gives for the old dictionary. |
| `Memory.Adapter.Get` | src/adapters/memory.js:43-56 | The new dictionary and the returned entry are exactly those `PeekStep` gives for the old dictionary. |
| `Decimal.IntToString` | src/limiter.js:49 | The text of an integer, as a template literal writes it: decimal digits, with a leading `-` exactly when the integer is negative. It has no leading zero, and no `-0`. |
| `Decimal.NatTextUnique` | src/limiter.js:49 | The digits written for `n` are the only digit text without a leading zero that reads back as `n`. |
| `Decimal.IntRoundTrip` | src/limiter.js:49 | The decimal text of every integer reads back to that integer. |
| `RateLimiter.Or` | src/limiter.js:43-44 | `value || fallback`: a present, non-zero value is kept; an absent or zero value gives the fallback. The result is non-zero whenever the fallback is. |
| `RateLimiter.Configure` | src/limiter.js:23-44 | Construction fails exactly when `id` is absent or empty. `max` is the given value if it is non-zero, else 2500, so an explicit `max: 0` becomes 2500. `duration` likewise falls back to 3600000. `db` replaces the injected factory exactly when given. |
| `RateLimiter.Limiter.constructor` | src/limiter.js:24-45 | It is reached only with a non-empty id and the injected factory. The fields are the settled id, max and duration. The adapter is built once, from them, over the factory's dictionary. |
| `RateLimiter.Limiter.Create` | src/limiter.js:23-46 | A falsy id is rejected. With `db` the redis factory is chosen. Without `db` and without an adapter factory, the call at line 45 fails with a TypeError (`AdapterFactoryMissing`). Otherwise the limiter is bound to a fresh memory adapter, and the shared dictionary is left untouched. |
| `RateLimiter.Limiter.Get` | src/limiter.js:59-65 | Without a callback, `get` has exactly the adapter's `get` effect and result. |
| `RateLimiter.Limiter.NewHit` | src/limiter.js:74-80 | Without a callback, `newHit` has exactly the adapter's `newHit` effect and result. |
| `RateLimiter.Limiter.Inspect` | src/limiter.js:48-50 | The text starts with `<Limiter id='` followed by the id, and ends with `'>`. |
| `RateLimiter.InspectRoundTrip` | src/limiter.js:48-50 | `inspect()` shows exactly the stored id, duration and max. For an id without a quote, all three parse back out of the text. |
| `Scenarios.RemainingCountsDown` | src/adapters/memory.spec.js:20-50 | With maximum 5, hits within the window report total 5 and remaining 5, 4, 3. |
| `Scenarios.ResetWithinWindow` | src/adapters/memory.spec.js:52-63 | A 60000 ms window reports a reset between 0 and 60 seconds ahead. |
| `Scenarios.ExceededStaysAtZero` | src/adapters/memory.spec.js:65-84 | With maximum 2, hits report 2, 1, 0. Any later hit, however late, still reports 0. |
| `Scenarios.DurationExceededResets` | src/adapters/memory.spec.js:86-108 | With maximum 2 and a 1000 ms window, hits report 2, 1. A hit after the window reports 2 again, with its reset between 0 and 2 seconds ahead. |
| `Scenarios.AdaptersShareDictionary` | src/adapters/memory.js:1-6 | Adapters from one factory call see each other's hits on the same key. Another key, or another factory call, has its own window. |
| `Scenarios.GetDoesNotConsume` | src/adapters/memory.js:43-56 | A `get` creates the window in full, a hit takes one call off, and later `get`s return the hit's entry unchanged. |
| `Scenarios.LimiterOverMemory` | src/limiter.js:74-80 | A limiter with max 2 and no duration hits 2, 1, 0 with the default one-hour window. |
| `Scenarios.ConstructionDefaults` | src/limiter.js:42-44 | A missing or empty id is rejected. Explicit zeros for max and duration become 2500 and 3600000, as `inspect` shows. |

## Left out

- The redis adapter (`src/adapters/redis`) is not part of this model, and neither are the
  tests that need a live redis server: TTL synchronisation and races between concurrent
  clients. A limiter built with `opts.db` is modelled only as the outcome `RedisBacked`,
  which carries the settled configuration.
- Promises and the callback forms `fn(null, res)` / `.catch(fn)` are not modelled. The
  operations are synchronous methods; the model covers the no-callback paths, which
  return the adapter's result unchanged.
- The deprecation `console.warn` is output only and is not modelled.
- `Date.now()` is not modelled: the instant is the parameter `now`, in milliseconds.
- Floating-point seconds are not modelled. `reset` is kept as the integer `now + duration`
  in milliseconds, and `ResetSeconds` gives the reported value as a `real`. The test
  `dateNow / 1000 > reset` is the same comparison on milliseconds in exact arithmetic
  (`Expired`). Floating-point rounding of the two divisions is not modelled. For instants
  large enough (for example 8859529416184316 and 8859529416184317 ms) the two quotients
  round to the same double, so the source sees no expiry where the model does.
- `id(ctx)` and the `ctx` argument are not modelled. Each adapter has one string key,
  fixed when it is made. In the source the adapter's `id` is a function, called on
  `ctx` for every access (src/adapters/memory.js:6, 12, 25, 45). With a string `id`,
  such as `'foo'` in the tests or the limiter's identifier, every `newHit` and `get`
  rejects with a TypeError. `Limiter` passes its own `this.id` to the factory
  (src/limiter.js:45). Over the memory adapter, that `id` is therefore a function: the
  dictionary key is `this.id({})`, and `inspect` prints the function's source text
  (src/limiter.js:49). The model uses one string for both (`Limiter.Bound` states
  `adapter.key == id`).
- Object aliasing is not modelled. The source returns the stored entry object, so an
  earlier result would see later mutations; the model returns value snapshots.
- Only integer `max`, `duration` and string `id` are modelled. Non-numeric or
  fractional values, `NaN`, and the exponent notation JavaScript uses for numbers of
  21 digits or more in `inspect` are not modelled.
- Concurrency is not modelled: the in-memory adapter runs each operation to completion
  within one process.
- Keys that name a property of the dictionary itself or of its prototypes are outside
  the model. The dictionary is a JavaScript array (src/adapters/memory.js:2), and the
  model treats it as a map from any string. In the source, `length` holds 0, which is
  falsy, so both operations try to create a window there, and the assignment throws a
  RangeError. `constructor`, `push`, `toString` and similar keys find a function, and
  `__proto__` finds `Array.prototype`. These are truthy and have no `remaining`, so
  `newHit` writes `remaining = NaN` onto them. For `__proto__` that property is then
  seen by every array in the process.
- Counts and instants are JavaScript numbers (doubles) in the source
  (src/adapters/memory.js:7-8, 16-17, 39). The model uses unbounded integers, which
  agree with the source only while `remaining`, `max` and `now + duration` stay below
  2^53. Above 2^53, `data.remaining--` is inexact: on 2^54 it leaves the value
  unchanged, and on 2^53 + 2 it takes off 2. The exact decrement of `HitDecrementsLive`,
  `HitsCountDownLive`, `HitsCountDownFresh` and `CountDownThenStuck` does not hold there.
