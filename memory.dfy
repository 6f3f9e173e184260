/**
 * The in-memory fixed-window adapter.
 *
 * One factory call owns one dictionary from keys to window entries; every adapter that
 * factory makes reads and writes that same dictionary. An adapter is bound to one key,
 * a maximum and a window duration, and offers two operations: `NewHit` consumes a call,
 * `Get` only looks. Time is an integer number of milliseconds passed in by the caller.
 *
 * The behaviour is given first as functions on the dictionary value (HitStep, PeekStep),
 * with lemmas about them; the classes at the end of the module change the shared
 * dictionary in place and are proved to follow those functions.
 */
module Memory {

  /** The value an adapter's identifier yields: the dictionary key of its window. */
  type Key = string

  /**
   * One window: calls left, the maximum it was created with, and the instant
   * (in milliseconds) after which the window is over.
   */
  datatype Entry = Entry(remaining: int, total: int, resetMs: int)

  /** The `reset` field as the adapter reports it, in epoch seconds. */
  function ResetSeconds(e: Entry): real
  {
    e.resetMs as real / 1000.0
  }

  /**
   * The adapter's `create`: a full window that ends `duration` ms after `now`. For a
   * non-negative maximum it satisfies the window invariant, and for a non-negative
   * duration it has not expired at its own creation instant.
   */
  function Create(max: int, duration: int, now: int): (e: Entry)
    ensures e.remaining == max && e.total == max
    ensures e.resetMs - now == duration
    ensures max >= 0 ==> WindowValid(e, max)
    ensures duration >= 0 ==> !Expired(e, now)
  {
    Entry(max, max, now + duration)
  }

  /**
   * The rollover test `data.reset && dateNow / 1000 > data.reset`. Both sides are the
   * same millisecond counts divided by 1000, so the comparison is the one on
   * milliseconds; a reset of zero is falsy and never expires.
   */
  predicate Expired(e: Entry, now: int)
    ensures Expired(e, now) <==>
      ResetSeconds(e) != 0.0 && now as real / 1000.0 > ResetSeconds(e)
  {
    e.resetMs != 0 && now > e.resetMs
  }

  /**
   * The adapter's `reset`: refill to `max` and restamp; `total` is left as it was, and
   * for a non-negative duration the new window has not expired at `now`.
   */
  function Rollover(e: Entry, max: int, duration: int, now: int): (r: Entry)
    ensures r.remaining == max && r.total == e.total
    ensures r.resetMs - now == duration
    ensures duration >= 0 ==> !Expired(r, now)
  {
    e.(remaining := max, resetMs := now + duration)
  }

  /** The dictionary after an operation and the entry the operation returns. */
  datatype Step = Step(dict: map<Key, Entry>, result: Entry)

  /**
   * `newHit` on the dictionary `d`: create on a missing key, return an exhausted entry
   * unchanged (before any look at the clock), roll an expired window over, and otherwise
   * take one call off `remaining`.
   */
  function HitStep(d: map<Key, Entry>, key: Key, max: int, duration: int, now: int): (s: Step)
    ensures key in s.dict && s.dict[key] == s.result
    ensures s.dict - {key} == d - {key}
    ensures key in d ==> s.result.total == d[key].total
    ensures key in d ==> s.result.remaining <= d[key].remaining || s.result.remaining == max
  {
    if key !in d then
      var e := Create(max, duration, now);
      Step(d[key := e], e)
    else if d[key].remaining <= 0 then
      Step(d, d[key])
    else if Expired(d[key], now) then
      var e := Rollover(d[key], max, duration, now);
      Step(d[key := e], e)
    else
      var e := d[key].(remaining := d[key].remaining - 1);
      Step(d[key := e], e)
  }

  /**
   * `get` on the dictionary `d`: create on a missing key, roll an expired window over,
   * and otherwise return the stored entry as it is.
   */
  function PeekStep(d: map<Key, Entry>, key: Key, max: int, duration: int, now: int): (s: Step)
    ensures key in s.dict && s.dict[key] == s.result
    ensures s.dict - {key} == d - {key}
    ensures key in d ==> s.result.total == d[key].total
    ensures key in d ==> s.result.remaining == d[key].remaining || s.result.remaining == max
  {
    if key !in d then
      var e := Create(max, duration, now);
      Step(d[key := e], e)
    else if Expired(d[key], now) then
      var e := Rollover(d[key], max, duration, now);
      Step(d[key := e], e)
    else
      Step(d, d[key])
  }

  // ---------------------------------------------------------------------------
  // One operation at a time
  // ---------------------------------------------------------------------------

  /** The first hit on a key creates a full window and does not take a call off it. */
  lemma HitCreatesFull(d: map<Key, Entry>, key: Key, max: int, duration: int, now: int)
    requires key !in d
    ensures HitStep(d, key, max, duration, now).result == Entry(max, max, now + duration)
  {
  }

  /** A hit on a live, unexpired window takes exactly one call off and changes nothing else. */
  lemma HitDecrementsLive(d: map<Key, Entry>, key: Key, max: int, duration: int, now: int)
    requires key in d && d[key].remaining > 0 && !Expired(d[key], now)
    ensures var s := HitStep(d, key, max, duration, now);
      s.result == d[key].(remaining := d[key].remaining - 1) && s.dict == d[key := s.result]
  {
  }

  /**
   * A hit on an exhausted window returns it unchanged and leaves the whole dictionary
   * as it was, even when the window's reset instant has passed.
   */
  lemma HitLeavesExhausted(d: map<Key, Entry>, key: Key, max: int, duration: int, now: int)
    requires key in d && d[key].remaining <= 0
    ensures HitStep(d, key, max, duration, now) == Step(d, d[key])
  {
  }

  /** A hit on an expired, non-exhausted window refills it without taking a call off. */
  lemma HitRollsOver(d: map<Key, Entry>, key: Key, max: int, duration: int, now: int)
    requires key in d && d[key].remaining > 0 && Expired(d[key], now)
    ensures var e := HitStep(d, key, max, duration, now).result;
      e.remaining == max && e.resetMs == now + duration && e.total == d[key].total
  {
  }

  /**
   * `get` never takes a call off: it creates, rolls over, or returns the stored entry
   * with the dictionary untouched.
   */
  lemma PeekNeverConsumes(d: map<Key, Entry>, key: Key, max: int, duration: int, now: int)
    ensures var s := PeekStep(d, key, max, duration, now);
      && (key !in d ==> s.result == Entry(max, max, now + duration))
      && (key in d && Expired(d[key], now) ==>
            s.result == d[key].(remaining := max, resetMs := now + duration))
      && (key in d && !Expired(d[key], now) ==> s == Step(d, d[key]))
  {
  }

  /** Looking twice at the same instant gives the same entry and the same dictionary. */
  lemma PeekIdempotent(d: map<Key, Entry>, key: Key, max: int, duration: int, now: int)
    ensures var s := PeekStep(d, key, max, duration, now);
      PeekStep(s.dict, key, max, duration, now) == s
  {
  }

  /**
   * Only `get` reopens an exhausted window whose time is up: after it, the next hit
   * takes a call off the fresh window.
   */
  lemma PeekReopensExhausted(d: map<Key, Entry>, key: Key, max: int, duration: int, now: int)
    requires key in d && d[key].remaining <= 0 && Expired(d[key], now)
    requires max > 0 && duration >= 0
    ensures var p := PeekStep(d, key, max, duration, now);
      var h := HitStep(p.dict, key, max, duration, now);
      p.result.remaining == max && h.result.remaining == max - 1
  {
  }

  /**
   * Whenever a window is created or rolled over, its reset instant lies exactly
   * `duration` ms after `now`; in the reported seconds, `reset * 1000 - now == duration`,
   * and for a positive duration the reset lies in (now, now + duration] seconds.
   */
  lemma NewWindowResetDistance(e: Entry, now: int, duration: int)
    requires e.resetMs == now + duration
    ensures ResetSeconds(e) * 1000.0 - now as real == duration as real
    ensures duration > 0 ==>
      0.0 < ResetSeconds(e) - now as real / 1000.0 <= duration as real / 1000.0
  {
  }

  /** The windows a hit or a look produces on a missing or expired key end `duration` after `now`. */
  lemma FreshStampsReset(d: map<Key, Entry>, key: Key, max: int, duration: int, now: int)
    requires key !in d || Expired(d[key], now)
    ensures PeekStep(d, key, max, duration, now).result.resetMs == now + duration
    ensures key !in d || d[key].remaining > 0 ==>
      HitStep(d, key, max, duration, now).result.resetMs == now + duration
  {
  }

  // ---------------------------------------------------------------------------
  // Invariants
  // ---------------------------------------------------------------------------

  /** A window of an adapter with maximum `max`: `0 <= remaining <= total == max`. */
  predicate WindowValid(e: Entry, max: int)
  {
    0 <= e.remaining <= e.total && e.total == max
  }

  /** No window in the dictionary has a negative count. */
  predicate NoneNegative(d: map<Key, Entry>)
  {
    forall k :: k in d ==> d[k].remaining >= 0
  }

  /** For a non-negative maximum, a hit and a look both keep a valid window valid. */
  lemma StepsKeepWindowValid(d: map<Key, Entry>, key: Key, max: int, duration: int, now: int)
    requires max >= 0
    requires key in d ==> WindowValid(d[key], max)
    ensures WindowValid(HitStep(d, key, max, duration, now).result, max)
    ensures WindowValid(PeekStep(d, key, max, duration, now).result, max)
  {
  }

  /**
   * Whatever mix of adapters shares the dictionary, no count goes negative as long as
   * every adapter's maximum is non-negative.
   */
  lemma StepsKeepNoneNegative(d: map<Key, Entry>, key: Key, max: int, duration: int, now: int)
    requires max >= 0 && NoneNegative(d)
    ensures NoneNegative(HitStep(d, key, max, duration, now).dict)
    ensures NoneNegative(PeekStep(d, key, max, duration, now).dict)
  {
  }

  // ---------------------------------------------------------------------------
  // Runs of successive hits
  // ---------------------------------------------------------------------------

  /** The dictionary after a run of operations, and what each operation returned. */
  datatype Run = Run(dict: map<Key, Entry>, results: seq<Entry>)

  /** `n` if it is positive, else 0. */
  function AtLeastZero(n: int): nat
  {
    if n < 0 then 0 else n
  }

  /** Successive hits on one key at the instants `nows`, in order. */
  function Hits(d: map<Key, Entry>, key: Key, max: int, duration: int, nows: seq<int>): (r: Run)
    ensures |r.results| == |nows|
    ensures r.dict - {key} == d - {key}
    ensures nows != [] ==> key in r.dict && r.dict[key] == r.results[|nows| - 1]
    decreases |nows|
  {
    if nows == [] then
      Run(d, [])
    else
      var s := HitStep(d, key, max, duration, nows[0]);
      var rest := Hits(s.dict, key, max, duration, nows[1..]);
      Run(rest.dict, [s.result] + rest.results)
  }

  /** A run split in two is the second part run on what the first part left. */
  lemma {:induction false} HitsAppend(d: map<Key, Entry>, key: Key, max: int, duration: int,
                                      xs: seq<int>, ys: seq<int>)
    ensures var a := Hits(d, key, max, duration, xs);
      var b := Hits(a.dict, key, max, duration, ys);
      Hits(d, key, max, duration, xs + ys) == Run(b.dict, a.results + b.results)
    decreases |xs|
  {
    if xs == [] {
      assert xs + ys == ys;
    } else {
      var s := HitStep(d, key, max, duration, xs[0]);
      assert (xs + ys)[0] == xs[0];
      assert (xs + ys)[1..] == xs[1..] + ys;
      HitsAppend(s.dict, key, max, duration, xs[1..], ys);
      var a := Hits(s.dict, key, max, duration, xs[1..]);
      var b := Hits(a.dict, key, max, duration, ys);
      assert [s.result] + (a.results + b.results) == ([s.result] + a.results) + b.results;
    }
  }

  /**
   * Hits on a live window before its reset instant count down by one each and stop at
   * zero; total and reset instant stay as they are.
   */
  lemma {:induction false} HitsCountDownLive(d: map<Key, Entry>, key: Key, max: int, duration: int,
                                             nows: seq<int>)
    requires key in d && d[key].remaining >= 0
    requires forall i :: 0 <= i < |nows| ==> nows[i] <= d[key].resetMs
    ensures forall i :: 0 <= i < |nows| ==>
      Hits(d, key, max, duration, nows).results[i]
        == d[key].(remaining := AtLeastZero(d[key].remaining - (i + 1)))
    decreases |nows|
  {
    if nows != [] {
      var e := d[key];
      var s := HitStep(d, key, max, duration, nows[0]);
      assert s.result == e.(remaining := AtLeastZero(e.remaining - 1));
      HitsCountDownLive(s.dict, key, max, duration, nows[1..]);
      var rest := Hits(s.dict, key, max, duration, nows[1..]);
      var r := Hits(d, key, max, duration, nows);
      assert r.results == [s.result] + rest.results;
      forall i | 0 <= i < |nows|
        ensures r.results[i] == e.(remaining := AtLeastZero(e.remaining - (i + 1)))
      {
        if i > 0 {
          assert r.results[i] == rest.results[i - 1];
        }
      }
    }
  }

  /**
   * On a fresh key with no window expiring, the k-th hit (k = i + 1) returns
   * `remaining == max(max - (k - 1), 0)`, `total == max` and the reset stamped by the
   * first hit: the sequences 5, 4, 3 for maximum 5 and 2, 1, 0, 0 for maximum 2.
   */
  lemma {:induction false} HitsCountDownFresh(d: map<Key, Entry>, key: Key, max: int, duration: int,
                                              nows: seq<int>)
    requires key !in d && max >= 0 && nows != []
    requires forall i :: 0 <= i < |nows| ==> nows[i] <= nows[0] + duration
    ensures forall i :: 0 <= i < |nows| ==>
      Hits(d, key, max, duration, nows).results[i] == Entry(AtLeastZero(max - i), max, nows[0] + duration)
  {
    var s := HitStep(d, key, max, duration, nows[0]);
    HitsCountDownLive(s.dict, key, max, duration, nows[1..]);
    var rest := Hits(s.dict, key, max, duration, nows[1..]);
    var r := Hits(d, key, max, duration, nows);
    assert r.results == [s.result] + rest.results;
    forall i | 0 <= i < |nows|
      ensures r.results[i] == Entry(AtLeastZero(max - i), max, nows[0] + duration)
    {
      if i > 0 {
        assert r.results[i] == rest.results[i - 1];
        assert nows[1..][i - 1] == nows[i];
      }
    }
  }

  /**
   * Once a window is exhausted, no run of hits changes anything, however late they
   * come: only `get` can roll it over.
   */
  lemma {:induction false} ExhaustedIsStuck(d: map<Key, Entry>, key: Key, max: int, duration: int,
                                            nows: seq<int>)
    requires key in d && d[key].remaining <= 0
    ensures Hits(d, key, max, duration, nows).dict == d
    ensures forall i :: 0 <= i < |nows| ==> Hits(d, key, max, duration, nows).results[i] == d[key]
    decreases |nows|
  {
    if nows != [] {
      ExhaustedIsStuck(d, key, max, duration, nows[1..]);
    }
  }

  /**
   * On a fresh key, `max + 1` hits within the window (`xs`) exhaust it; every hit after
   * them (`ys`), however late, returns the exhausted window with the first hit's reset.
   */
  lemma CountDownThenStuck(d: map<Key, Entry>, key: Key, max: int, duration: int,
                           xs: seq<int>, ys: seq<int>)
    requires key !in d && max >= 0 && |xs| == max + 1
    requires forall i :: 0 <= i < |xs| ==> xs[i] <= xs[0] + duration
    ensures forall i :: |xs| <= i < |xs| + |ys| ==>
      Hits(d, key, max, duration, xs + ys).results[i] == Entry(0, max, xs[0] + duration)
  {
    HitsCountDownFresh(d, key, max, duration, xs);
    var a := Hits(d, key, max, duration, xs);
    assert a.results[max] == Entry(0, max, xs[0] + duration);
    ExhaustedIsStuck(a.dict, key, max, duration, ys);
    HitsAppend(d, key, max, duration, xs, ys);
  }

  /**
   * Along any run of one adapter's hits, with a non-negative maximum, every returned
   * window satisfies `0 <= remaining <= total == max`.
   */
  lemma {:induction false} HitsKeepWindowValid(d: map<Key, Entry>, key: Key, max: int, duration: int,
                                               nows: seq<int>)
    requires max >= 0
    requires key in d ==> WindowValid(d[key], max)
    ensures forall i :: 0 <= i < |nows| ==>
      WindowValid(Hits(d, key, max, duration, nows).results[i], max)
    decreases |nows|
  {
    if nows != [] {
      var s := HitStep(d, key, max, duration, nows[0]);
      StepsKeepWindowValid(d, key, max, duration, nows[0]);
      HitsKeepWindowValid(s.dict, key, max, duration, nows[1..]);
      var rest := Hits(s.dict, key, max, duration, nows[1..]);
      var r := Hits(d, key, max, duration, nows);
      assert r.results == [s.result] + rest.results;
      forall i | 0 <= i < |nows| ensures WindowValid(r.results[i], max) {
        if i > 0 {
          assert r.results[i] == rest.results[i - 1];
        }
      }
    }
  }

  /**
   * Maximum 2, window 1000 ms: hits at 0, 1 and 2 ms return 2, 1, 0; a hit at 5000 ms,
   * long after the window ended at 1000 ms, still returns the exhausted window.
   */
  lemma ExhaustedPastResetExample()
    ensures var r := Hits(map[], "foo", 2, 1000, [0, 1, 2, 5000]);
      && r.results[0].remaining == 2 && r.results[1].remaining == 1
      && r.results[2].remaining == 0
      && r.results[3] == Entry(0, 2, 1000) && Expired(r.results[3], 5000)
  {
  }

  // ---------------------------------------------------------------------------
  // The shared dictionary, the factory and the adapters
  // ---------------------------------------------------------------------------

  /** The dictionary one factory call creates and all its adapters share. */
  class Store {
    var dict: map<Key, Entry>

    constructor ()
      ensures dict == map[]
    {
      dict := map[];
    }
  }

  /** One call of the module's default export: it owns a fresh, empty dictionary. */
  class AdapterFactory {
    const store: Store

    constructor ()
      ensures fresh(store) && store.dict == map[]
    {
      store := new Store();
    }

    /** The returned closure `(id, max, duration)`: an adapter over this factory's dictionary. */
    method Make(key: Key, max: int, duration: int) returns (a: Adapter)
      ensures fresh(a)
      ensures a.store == store && a.key == key && a.max == max && a.duration == duration
    {
      a := new Adapter(store, key, max, duration);
    }
  }

  /** An adapter bound to one key, maximum and duration over a shared dictionary. */
  class Adapter {
    const store: Store
    const key: Key
    const max: int
    const duration: int

    constructor (store: Store, key: Key, max: int, duration: int)
      ensures this.store == store && this.key == key
      ensures this.max == max && this.duration == duration
    {
      this.store := store;
      this.key := key;
      this.max := max;
      this.duration := duration;
    }

    /** Consume one call at instant `now`; only this adapter's key may change. */
    method NewHit(now: int) returns (e: Entry)
      modifies store
      ensures Step(store.dict, e) == HitStep(old(store.dict), key, max, duration, now)
    {
      if key !in store.dict {
        e := Create(max, duration, now);
        store.dict := store.dict[key := e];
        return;
      }
      var data := store.dict[key];
      if data.remaining <= 0 {
        e := data;
        return;
      }
      if Expired(data, now) {
        e := Rollover(data, max, duration, now);
        store.dict := store.dict[key := e];
        return;
      }
      e := data.(remaining := data.remaining - 1);
      store.dict := store.dict[key := e];
    }

    /** Look at the window at instant `now`, creating or rolling it over as needed. */
    method Get(now: int) returns (e: Entry)
      modifies store
      ensures Step(store.dict, e) == PeekStep(old(store.dict), key, max, duration, now)
    {
      if key !in store.dict {
        e := Create(max, duration, now);
        store.dict := store.dict[key := e];
        return;
      }
      var data := store.dict[key];
      if Expired(data, now) {
        e := Rollover(data, max, duration, now);
        store.dict := store.dict[key := e];
        return;
      }
      e := data;
    }
  }
}
