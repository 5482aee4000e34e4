/**
 * The metrics-list visitor: each batch of envelopes read from Log Cache is
 * folded into three tables keyed by metric name, one per envelope kind. The
 * tables live outside the visitor, so they accumulate across batches.
 */
module MetricsList {
  import opened Wrappers

  const TwoTo63: int := 0x8000_0000_0000_0000
  const TwoTo64: int := 0x1_0000_0000_0000_0000

  /** Go's `uint64` and `int64`. */
  type UInt64 = x: int | 0 <= x < TwoTo64
  type Int64 = x: int | -TwoTo63 <= x < TwoTo63

  /** Go's `int64` subtraction, which wraps around modulo 2^64. */
  function Sub64(a: Int64, b: Int64): (r: Int64)
    ensures (a - b - r) % TwoTo64 == 0
    ensures -TwoTo63 <= a - b < TwoTo63 ==> r == a - b
  {
    var d := a - b;
    if d >= TwoTo63 then d - TwoTo64 else if d < -TwoTo63 then d + TwoTo64 else d
  }

  /**
   * The envelope kinds the visitor distinguishes; `Other` stands for every
   * kind its `switch` has no case for (logs, events).
   */
  datatype Envelope =
    | Gauge(metrics: map<string, real>)
    | Counter(name: string, total: UInt64)
    | Timer(name: string, start: Int64, stop: Int64)
    | Other

  /** The three tables `mg`, `mc` and `mt`. */
  datatype Tables = Tables(gauges: map<string, real>, counters: map<string, UInt64>, timers: map<string, Int64>)

  /** The effect of one envelope: a write into the table of its own kind, and nothing else. */
  function Apply(t: Tables, e: Envelope): (r: Tables)
    ensures e.Gauge? ==>
      && r.counters == t.counters && r.timers == t.timers
      && r.gauges.Keys == t.gauges.Keys + e.metrics.Keys
      && (forall n :: n in e.metrics ==> r.gauges[n] == e.metrics[n])
      && (forall n :: n in t.gauges && n !in e.metrics ==> r.gauges[n] == t.gauges[n])
    ensures e.Counter? ==> r == t.(counters := t.counters[e.name := e.total])
    ensures e.Timer? ==> r == t.(timers := t.timers[e.name := Sub64(e.stop, e.start)])
    ensures e.Other? ==> r == t
  {
    match e
    case Gauge(metrics) => t.(gauges := t.gauges + metrics)
    case Counter(name, total) => t.(counters := t.counters[name := total])
    case Timer(name, start, stop) => t.(timers := t.timers[name := Sub64(stop, start)])
    case Other => t
  }

  /** The tables after visiting `es` in order, starting from `t`. */
  function Visited(t: Tables, es: seq<Envelope>): Tables
  {
    if es == [] then t else Apply(Visited(t, es[..|es| - 1]), es[|es| - 1])
  }

  /** Visiting two batches one after the other is visiting their concatenation. */
  lemma {:induction false} VisitedConcat(t: Tables, b1: seq<Envelope>, b2: seq<Envelope>)
    ensures Visited(Visited(t, b1), b2) == Visited(t, b1 + b2)
    decreases |b2|
  {
    if b2 == [] {
      assert b1 + b2 == b1;
    } else {
      var last := |b2| - 1;
      VisitedConcat(t, b1, b2[..last]);
      assert (b1 + b2)[..|b1 + b2| - 1] == b1 + b2[..last];
    }
  }

  /** The counter table holds the total of the last counter envelope for each name. */
  lemma {:induction false} LastCounterWins(t: Tables, es: seq<Envelope>, i: nat)
    requires i < |es| && es[i].Counter?
    requires forall j :: i < j < |es| && es[j].Counter? ==> es[j].name != es[i].name
    ensures es[i].name in Visited(t, es).counters
    ensures Visited(t, es).counters[es[i].name] == es[i].total
    decreases |es|
  {
    var last := |es| - 1;
    if i < last {
      LastCounterWins(t, es[..last], i);
    }
  }

  /** The timer table holds `stop - start` of the last timer envelope for each name. */
  lemma {:induction false} LastTimerWins(t: Tables, es: seq<Envelope>, i: nat)
    requires i < |es| && es[i].Timer?
    requires forall j :: i < j < |es| && es[j].Timer? ==> es[j].name != es[i].name
    ensures es[i].name in Visited(t, es).timers
    ensures Visited(t, es).timers[es[i].name] == Sub64(es[i].stop, es[i].start)
    decreases |es|
  {
    var last := |es| - 1;
    if i < last {
      LastTimerWins(t, es[..last], i);
    }
  }

  /** The gauge table holds the value from the last gauge envelope that carries each name. */
  lemma {:induction false} LastGaugeWins(t: Tables, es: seq<Envelope>, i: nat, name: string)
    requires i < |es| && es[i].Gauge? && name in es[i].metrics
    requires forall j :: i < j < |es| && es[j].Gauge? ==> name !in es[j].metrics
    ensures name in Visited(t, es).gauges
    ensures Visited(t, es).gauges[name] == es[i].metrics[name]
    decreases |es|
  {
    var last := |es| - 1;
    if i < last {
      LastGaugeWins(t, es[..last], i, name);
    }
  }

  /** A name that no envelope of a kind mentions keeps its entry in that kind's table. */
  lemma {:induction false} UnmentionedUnchanged(t: Tables, es: seq<Envelope>, name: string)
    ensures (forall j :: 0 <= j < |es| && es[j].Gauge? ==> name !in es[j].metrics) ==>
      (name in Visited(t, es).gauges <==> name in t.gauges) &&
      (name in t.gauges ==> Visited(t, es).gauges[name] == t.gauges[name])
    ensures (forall j :: 0 <= j < |es| && es[j].Counter? ==> es[j].name != name) ==>
      (name in Visited(t, es).counters <==> name in t.counters) &&
      (name in t.counters ==> Visited(t, es).counters[name] == t.counters[name])
    ensures (forall j :: 0 <= j < |es| && es[j].Timer? ==> es[j].name != name) ==>
      (name in Visited(t, es).timers <==> name in t.timers) &&
      (name in t.timers ==> Visited(t, es).timers[name] == t.timers[name])
    decreases |es|
  {
    if es != [] {
      UnmentionedUnchanged(t, es[..|es| - 1], name);
    }
  }

  /** The maps `mg`, `mc` and `mt` that the visitor closure captures. */
  class Maps {
    var gauges: map<string, real>
    var counters: map<string, UInt64>
    var timers: map<string, Int64>

    function Contents(): Tables
      reads this
    {
      Tables(gauges, counters, timers)
    }

    constructor ()
      ensures Contents() == Tables(map[], map[], map[])
    {
      gauges, counters, timers := map[], map[], map[];
    }

    /** The `visitor` closure: folds a batch into the tables and asks the walk to go on. */
    method Visit(es: seq<Envelope>) returns (more: bool)
      modifies this
      ensures more
      ensures Contents() == Visited(old(Contents()), es)
    {
      var i := 0;
      while i < |es|
        invariant 0 <= i <= |es|
        invariant Contents() == Visited(old(Contents()), es[..i])
      {
        assert es[..i + 1][..i] == es[..i];
        match es[i] {
          case Gauge(metrics) =>
            MergeGauges(metrics);
          case Counter(name, total) =>
            counters := counters[name := total];
          case Timer(name, start, stop) =>
            timers := timers[name := Sub64(stop, start)];
          case Other =>
        }
        i := i + 1;
      }
      assert es[..i] == es;
      return true;
    }

    /** The gauge case: every metric of the envelope is written under its name. */
    method MergeGauges(metrics: map<string, real>)
      modifies this
      ensures gauges == old(gauges) + metrics
      ensures counters == old(counters) && timers == old(timers)
    {
      // one write per name; distinct names make the map's iteration order irrelevant
      var keys := metrics.Keys;
      while keys != {}
        invariant keys <= metrics.Keys
        invariant gauges == old(gauges) + map n | n in metrics.Keys - keys :: metrics[n]
        invariant counters == old(counters) && timers == old(timers)
        decreases keys
      {
        var name :| name in keys;
        gauges := gauges[name := metrics[name]];
        keys := keys - {name};
      }
      assert metrics == map n | n in metrics.Keys - keys :: metrics[n];
    }
  }

  datatype Config = Config(token: string, logCacheAddr: string, sourceID: string, interval: int)

  /** What `envstruct.Load` extracted from the environment; an unset `INTERVAL` is `None`. */
  datatype Environment = Environment(token: string, logCacheAddr: string, sourceID: string, interval: Option<int>)

  /** One minute, as a `time.Duration` in nanoseconds. */
  const DefaultInterval: int := 60 * 1_000_000_000

  /**
   * `LoadConfig`: the walk window defaults to one minute; the addresses are
   * used as given. A failed load ends the process (`log.Fatal`).
   */
  method LoadConfig(loaded: Result<Environment, string>) returns (r: Result<Config, string>)
    ensures loaded.Failure? <==> r.Failure?
    ensures loaded.Failure? ==> r.error == loaded.error
    ensures loaded.Success? ==>
      var env := loaded.value;
      && r.value.interval == (if env.interval.Some? then env.interval.value else DefaultInterval)
      && r.value.token == env.token
      && r.value.logCacheAddr == env.logCacheAddr
      && r.value.sourceID == env.sourceID
  {
    var cfg := Config("", "", "", DefaultInterval);
    if loaded.Failure? {
      return Failure(loaded.error);
    }
    var env := loaded.value;
    cfg := cfg.(token := env.token, logCacheAddr := env.logCacheAddr, sourceID := env.sourceID);
    if env.interval.Some? {
      cfg := cfg.(interval := env.interval.value);
    }
    return Success(cfg);
  }
}
