/**
 * The `Limiter` facade: it checks the identifier, fills in the default maximum and
 * duration, builds its adapter once, and afterwards hands every `get` and `newHit`
 * straight to that adapter.
 */
module RateLimiter {
  import opened Wrappers
  import opened Decimal
  import Memory

  /** `max` when the options give none (or a falsy one). */
  const DefaultMax: int := 2500

  /** `duration` in milliseconds when the options give none (or a falsy one): one hour. */
  const DefaultDuration: int := 3600000

  /**
   * The client handle given as `opts.db`. The redis adapter built from it is outside
   * this model; the handle only records that it was given.
   */
  datatype DbHandle = DbHandle(client: nat)

  /** The constructor's `opts`; `None` is a property that is absent. */
  datatype Options = Options(id: Option<string>, max: Option<int>,
                             duration: Option<int>, db: Option<DbHandle>)

  /** JavaScript truthiness of the identifier: present and not the empty string. */
  predicate IdGiven(id: Option<string>)
  {
    id.Some? && id.value != ""
  }

  /** `value || fallback` for a numeric option: absent and zero are both falsy. */
  function Or(value: Option<int>, fallback: int): (r: int)
    ensures value.Some? && value.value != 0 ==> r == value.value
    ensures value.None? || value.value == 0 ==> r == fallback
    ensures fallback != 0 ==> r != 0
  {
    match value
    case Some(v) => if v != 0 then v else fallback
    case None => fallback
  }

  /**
   * The constructor's failures: the failed `assert(this.id, '.id required')`, and the
   * TypeError of calling an adapter factory that was never given.
   */
  datatype ConfigError = IdRequired | AdapterFactoryMissing

  /** Which factory builds the adapter: the injected one, or the one derived from `opts.db`. */
  datatype FactoryChoice = Injected | FromDb(db: DbHandle)

  /** What the constructor settles before it builds the adapter. */
  datatype Config = Config(id: string, max: int, duration: int, factory: FactoryChoice)

  /**
   * The decisions of the constructor: a `db` option replaces the injected factory,
   * a falsy identifier is refused, and a falsy maximum or duration takes its default.
   */
  function Configure(opts: Options): (r: Result<Config, ConfigError>)
    ensures r.Failure? <==> !IdGiven(opts.id)
    ensures r.Success? ==> r.value.id == opts.id.value && r.value.id != ""
    ensures r.Success? ==> r.value.max != 0 && r.value.duration != 0
    ensures r.Success? && opts.max.Some? && opts.max.value != 0 ==> r.value.max == opts.max.value
    ensures r.Success? && (opts.max.None? || opts.max.value == 0) ==> r.value.max == DefaultMax
    ensures r.Success? && opts.duration.Some? && opts.duration.value != 0 ==>
      r.value.duration == opts.duration.value
    ensures r.Success? && (opts.duration.None? || opts.duration.value == 0) ==>
      r.value.duration == DefaultDuration
    ensures r.Success? ==> (r.value.factory == Injected <==> opts.db.None?)
    ensures r.Success? && opts.db.Some? ==> r.value.factory == FromDb(opts.db.value)
  {
    var factory := if opts.db.Some? then FromDb(opts.db.value) else Injected;
    if !IdGiven(opts.id) then Failure(IdRequired)
    else Success(Config(opts.id.value, Or(opts.max, DefaultMax),
                        Or(opts.duration, DefaultDuration), factory))
  }

  /** The outcome of `new Limiter(opts, adapterFactory)`. */
  datatype Construction =
    | Rejected(error: ConfigError)
    | RedisBacked(config: Config)
    | MemoryBacked(limiter: Limiter)

  // The pieces of the text `inspect` returns around the three field values.
  const InspectHead := "<Limiter id='"
  const DurationTag := "', duration='"
  const MaxTag := "', max='"
  const InspectTail := "'>"

  /** A limiter over an in-memory adapter. Its fields are fixed at construction. */
  class Limiter {
    const id: string
    const max: int
    const duration: int
    const adapter: Memory.Adapter

    /** The adapter was built from this limiter's own identifier, maximum and duration. */
    predicate Bound()
    {
      adapter.key == id && adapter.max == max && adapter.duration == duration
    }

    /**
     * Store the settled fields and build the adapter, once, from them. Only a
     * configuration that passed the identifier check and chose the injected factory
     * reaches this point.
     */
    constructor (config: Config, factory: Memory.AdapterFactory)
      requires config.id != "" && config.factory == Injected
      ensures id == config.id && max == config.max && duration == config.duration
      ensures fresh(adapter) && adapter.store == factory.store && Bound()
    {
      id := config.id;
      max := config.max;
      duration := config.duration;
      var a := factory.Make(config.id, config.max, config.duration);
      adapter := a;
    }

    /**
     * `new Limiter(opts, adapterFactory)` with the in-memory factory, or with none:
     * refused for a falsy identifier; handed to the redis factory when `opts.db` is
     * given; a TypeError when no factory was given either; otherwise a limiter whose
     * adapter shares the factory's dictionary, which is left unchanged.
     */
    static method Create(opts: Options, factory: Option<Memory.AdapterFactory>) returns (r: Construction)
      ensures r.Rejected? <==> !IdGiven(opts.id) || (opts.db.None? && factory.None?)
      ensures r.Rejected? ==>
        r.error == if IdGiven(opts.id) then AdapterFactoryMissing else IdRequired
      ensures r.RedisBacked? <==> IdGiven(opts.id) && opts.db.Some?
      ensures r.RedisBacked? ==> Configure(opts) == Success(r.config)
      ensures r.MemoryBacked? ==>
        && Configure(opts).Success? && factory.Some?
        && var c := Configure(opts).value;
        && r.limiter.id == c.id && r.limiter.max == c.max && r.limiter.duration == c.duration
        && fresh(r.limiter) && fresh(r.limiter.adapter)
        && r.limiter.adapter.store == factory.value.store && r.limiter.Bound()
      ensures factory.Some? ==> factory.value.store.dict == old(factory.value.store.dict)
    {
      var c := Configure(opts);
      if c.Failure? {
        r := Rejected(c.error);
      } else if c.value.factory.FromDb? {
        r := RedisBacked(c.value);
      } else if factory.None? {
        r := Rejected(AdapterFactoryMissing);
      } else {
        var l := new Limiter(c.value, factory.value);
        r := MemoryBacked(l);
      }
    }

    /** The diagnostic text `<Limiter id='ID', duration='D', max='M'>`. */
    function Inspect(): (s: string)
      ensures InspectHead + id <= s
      ensures |s| >= |InspectTail| && s[|s| - |InspectTail|..] == InspectTail
    {
      InspectHead + (id + (DurationTag + (IntToString(duration) + (MaxTag + (IntToString(max) + InspectTail)))))
    }

    /** `get()` without a callback: the adapter's look, unchanged. */
    method Get(now: int) returns (e: Memory.Entry)
      requires Bound()
      modifies adapter.store
      ensures Memory.Step(adapter.store.dict, e)
        == Memory.PeekStep(old(adapter.store.dict), id, max, duration, now)
    {
      e := adapter.Get(now);
    }

    /** `newHit()` without a callback: the adapter's hit, unchanged. */
    method NewHit(now: int) returns (e: Memory.Entry)
      requires Bound()
      modifies adapter.store
      ensures Memory.Step(adapter.store.dict, e)
        == Memory.HitStep(old(adapter.store.dict), id, max, duration, now)
    {
      e := adapter.NewHit(now);
    }
  }

  // ---------------------------------------------------------------------------
  // Reading the `inspect` text back
  // ---------------------------------------------------------------------------

  /** The three values an `inspect` text shows. */
  datatype Inspection = Inspection(id: string, duration: int, max: int)

  /** Split `s` before its first quote character. */
  function TakeToQuote(s: string): (r: (string, string))
    ensures r.0 + r.1 == s
    ensures '\'' !in r.0
    ensures r.1 == [] || r.1[0] == '\''
    decreases |s|
  {
    if s == [] || s[0] == '\'' then ([], s)
    else
      var t := TakeToQuote(s[1..]);
      ([s[0]] + t.0, t.1)
  }

  /** A quote-free prefix followed by a quote (or nothing) is exactly where the split falls. */
  lemma {:induction false} TakeToQuoteSplits(a: string, b: string)
    requires '\'' !in a
    requires b == [] || b[0] == '\''
    ensures TakeToQuote(a + b) == (a, b)
    decreases |a|
  {
    if a == [] {
      assert a + b == b;
    } else {
      assert (a + b)[0] == a[0];
      assert (a + b)[1..] == a[1..] + b;
      TakeToQuoteSplits(a[1..], b);
      assert [a[0]] + a[1..] == a;
    }
  }

  /** Read the identifier, duration and maximum back out of an `inspect` text. */
  function ParseInspect(s: string): Option<Inspection>
  {
    if !(InspectHead <= s) then None
    else
      var (idText, afterId) := TakeToQuote(s[|InspectHead|..]);
      if !(DurationTag <= afterId) then None
      else
        match ParseNumbers(afterId[|DurationTag|..])
        case Some((d, m)) => Some(Inspection(idText, d, m))
        case None => None
  }

  /** The duration and maximum texts that follow the identifier, up to the closing `'>`. */
  function ParseNumbers(s: string): Option<(int, int)>
  {
    var (durationText, afterDuration) := TakeToQuote(s);
    if !(MaxTag <= afterDuration) then None
    else
      var (maxText, rest) := TakeToQuote(afterDuration[|MaxTag|..]);
      if rest != InspectTail then None
      else
        match (ParseInt(durationText), ParseInt(maxText))
        case (Some(d), Some(m)) => Some((d, m))
        case _ => None
  }

  /** Integer text never holds a quote character. */
  lemma IntTextQuoteFree(n: int)
    ensures '\'' !in IntToString(n)
  {
  }

  /** The two number texts of an `inspect` text parse back to their values. */
  lemma ParseNumbersOf(duration: int, max: int)
    ensures ParseNumbers(IntToString(duration) + (MaxTag + (IntToString(max) + InspectTail)))
      == Some((duration, max))
  {
    var d := IntToString(duration);
    var m := IntToString(max);
    IntTextQuoteFree(duration);
    IntTextQuoteFree(max);
    IntRoundTrip(duration);
    IntRoundTrip(max);
    var afterDuration := MaxTag + (m + InspectTail);
    TakeToQuoteSplits(d, afterDuration);
    assert afterDuration[|MaxTag|..] == m + InspectTail;
    TakeToQuoteSplits(m, InspectTail);
  }

  /** The text `inspect` writes around a quote-free identifier parses back to the three fields. */
  lemma ParseInspectOf(id: string, duration: int, max: int)
    requires '\'' !in id
    ensures ParseInspect(InspectHead + (id + (DurationTag + (IntToString(duration)
                         + (MaxTag + (IntToString(max) + InspectTail))))))
      == Some(Inspection(id, duration, max))
  {
    var numbers := IntToString(duration) + (MaxTag + (IntToString(max) + InspectTail));
    var afterId := DurationTag + numbers;
    var s := InspectHead + (id + afterId);
    assert s[|InspectHead|..] == id + afterId;
    TakeToQuoteSplits(id, afterId);
    assert afterId[|DurationTag|..] == numbers;
    ParseNumbersOf(duration, max);
  }

  /**
   * `inspect` shows exactly the stored identifier, duration and maximum: for an
   * identifier without a quote character, all three can be read back from the text.
   */
  lemma InspectRoundTrip(l: Limiter)
    requires '\'' !in l.id
    ensures ParseInspect(l.Inspect()) == Some(Inspection(l.id, l.duration, l.max))
  {
    ParseInspectOf(l.id, l.duration, l.max);
  }
}
