/**
 * Clients of the adapter and limiter classes: the value sequences the repository's
 * tests expect, derived from the classes' contracts alone. Instants are milliseconds.
 */
module Scenarios {
  import opened Wrappers
  import opened Memory
  import opened RateLimiter

  /** Maximum 5: hits within the window report total 5 and remaining 5, 4, 3. */
  method RemainingCountsDown(t1: int, t2: int, t3: int) returns (first: Entry, second: Entry, third: Entry)
    requires t1 <= t2 <= t3 <= t1 + 100000
    ensures first.total == 5 && second.total == 5 && third.total == 5
    ensures first.remaining == 5 && second.remaining == 4 && third.remaining == 3
  {
    var factory := new AdapterFactory();
    var adapter := factory.Make("foo", 5, 100000);
    first := adapter.NewHit(t1);
    second := adapter.NewHit(t2);
    third := adapter.NewHit(t3);
  }

  /** A 60000 ms window reports a reset between 0 and 60 seconds after the hit. */
  method ResetWithinWindow(now: int) returns (e: Entry)
    ensures 0.0 < ResetSeconds(e) - now as real / 1000.0 <= 60.0
  {
    var factory := new AdapterFactory();
    var adapter := factory.Make("foo", 5, 60000);
    e := adapter.NewHit(now);
    NewWindowResetDistance(e, now, 60000);
  }

  /** Maximum 2: hits report 2, 1, 0, and once at 0 the count stays there. */
  method ExceededStaysAtZero(t1: int, t2: int, t3: int, t4: int)
    returns (first: Entry, second: Entry, third: Entry, fourth: Entry)
    requires t1 <= t2 <= t3 <= t1 + 10000 && t3 <= t4
    ensures first.remaining == 2 && second.remaining == 1
    ensures third.remaining == 0 && fourth.remaining == 0
  {
    var factory := new AdapterFactory();
    var adapter := factory.Make("foo", 2, 10000);
    first := adapter.NewHit(t1);
    second := adapter.NewHit(t2);
    third := adapter.NewHit(t3);
    fourth := adapter.NewHit(t4);
  }

  /**
   * Maximum 2, window 1000 ms: hits report 2, 1; a hit after the window has ended opens
   * a new window, reports 2 again, and its reset lies between 0 and 2 seconds ahead.
   */
  method DurationExceededResets(t1: int, t2: int, t3: int) returns (first: Entry, second: Entry, third: Entry)
    requires 0 <= t1 <= t2 <= t1 + 1000 < t3
    ensures first.remaining == 2 && second.remaining == 1 && third.remaining == 2
    ensures 0.0 < ResetSeconds(third) - t3 as real / 1000.0 < 2.0
  {
    var factory := new AdapterFactory();
    var adapter := factory.Make("foo", 2, 1000);
    first := adapter.NewHit(t1);
    second := adapter.NewHit(t2);
    third := adapter.NewHit(t3);
    NewWindowResetDistance(third, t3, 1000);
  }

  /**
   * Adapters from one factory call share its dictionary: a hit through one is seen
   * through the other. A different key, or a second factory call, has its own window.
   */
  method AdaptersShareDictionary(now: int)
    returns (viaFirst: Entry, viaSecond: Entry, otherKey: Entry, otherFactory: Entry)
    ensures viaFirst.remaining == 5 && viaSecond.remaining == 4
    ensures otherKey.remaining == 5 && otherFactory.remaining == 5
  {
    var factory := new AdapterFactory();
    var first := factory.Make("foo", 5, 100000);
    var second := factory.Make("foo", 5, 100000);
    var third := factory.Make("bar", 5, 100000);
    viaFirst := first.NewHit(now);
    viaSecond := second.NewHit(now);
    otherKey := third.NewHit(now);
    var another := new AdapterFactory();
    var fourth := another.Make("foo", 5, 100000);
    otherFactory := fourth.NewHit(now);
  }

  /**
   * `get` does not consume: a look creates the window in full, the next hit takes one
   * call off, and later looks report the hit's entry unchanged.
   */
  method GetDoesNotConsume(t1: int, t2: int, t3: int, t4: int)
    returns (look1: Entry, hit: Entry, look2: Entry, look3: Entry)
    requires t1 <= t2 <= t3 <= t4 <= t1 + 100000
    ensures look1.remaining == 5 && hit.remaining == 4
    ensures look2 == hit && look3 == hit
  {
    var factory := new AdapterFactory();
    var adapter := factory.Make("foo", 5, 100000);
    look1 := adapter.Get(t1);
    hit := adapter.NewHit(t2);
    look2 := adapter.Get(t3);
    look3 := adapter.Get(t4);
  }

  /**
   * A limiter over the in-memory factory with maximum 2 and no duration: the default
   * one-hour window, and hits reporting 2, 1, 0 exactly as the adapter would.
   */
  method LimiterOverMemory(t: int) returns (first: Entry, second: Entry, third: Entry)
    ensures first.total == 2 && first.resetMs == t + DefaultDuration
    ensures first.remaining == 2 && second.remaining == 1 && third.remaining == 0
  {
    var factory := new AdapterFactory();
    var built := Limiter.Create(Options(Some("something"), Some(2), None, None), Some(factory));
    var limiter := built.limiter;
    first := limiter.NewHit(t);
    second := limiter.NewHit(t);
    third := limiter.NewHit(t);
  }

  /**
   * Construction: a missing or empty identifier is refused; explicit zeros for the
   * maximum and duration fall back to the defaults, which `inspect` then shows.
   */
  method ConstructionDefaults() returns (missing: Construction, empty: Construction, shown: Option<Inspection>)
    ensures missing == Rejected(IdRequired) && empty == Rejected(IdRequired)
    ensures shown == Some(Inspection("x", DefaultDuration, DefaultMax))
  {
    var factory := new AdapterFactory();
    missing := Limiter.Create(Options(None, Some(5), Some(1000), None), Some(factory));
    empty := Limiter.Create(Options(Some(""), Some(5), Some(1000), None), Some(factory));
    var built := Limiter.Create(Options(Some("x"), Some(0), Some(0), None), Some(factory));
    var limiter := built.limiter;
    InspectRoundTrip(limiter);
    shown := ParseInspect(limiter.Inspect());
  }
}
