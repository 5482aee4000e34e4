/**
 * The auto-scaler: a webhook handler that scales one application up or down
 * by a single instance, unless the newest event is an `audit.app.update`
 * younger than the cooldown, or the step would go above the maximum
 * (scaling up) or below the minimum (scaling down).
 */
module AutoScaler {
  import opened Wrappers
  import opened Capi

  datatype Config = Config(
    appToScale: string,
    vcap: VcapApplication,
    scaleUp: bool,
    max: int,
    min: int)

  /**
   * What `envstruct.Load` extracted from the environment: the variables that
   * were set (an unset `MAX_INSTANCES` or `MIN_INSTANCES` is `None`).
   */
  datatype Environment = Environment(
    appToScale: string,
    vcap: VcapApplication,
    scaleUp: bool,
    maxInstances: Option<int>,
    minInstances: Option<int>)

  const DefaultMax: int := 5
  const DefaultMin: int := 1

  /**
   * `LoadConfig`: defaults, then the environment, then the CAPI address
   * rewritten to plain HTTP. A failed load ends the process (`log.Fatal`),
   * modelled as `Failure` carrying the loader's error.
   */
  method LoadConfig(loaded: Result<Environment, string>) returns (r: Result<Config, string>)
    ensures loaded.Failure? <==> r.Failure?
    ensures loaded.Failure? ==> r.error == loaded.error
    ensures loaded.Success? ==>
      var env := loaded.value;
      && r.value.max == (if env.maxInstances.Some? then env.maxInstances.value else DefaultMax)
      && r.value.min == (if env.minInstances.Some? then env.minInstances.value else DefaultMin)
      && r.value.appToScale == env.appToScale
      && r.value.scaleUp == env.scaleUp
      && r.value.vcap == env.vcap.(capiAddr := HttpAddr(env.vcap.capiAddr))
  {
    var cfg := Config("", VcapApplication("", "", "", "", []), false, DefaultMax, DefaultMin);
    if loaded.Failure? {
      return Failure(loaded.error);
    }
    var env := loaded.value;
    cfg := cfg.(appToScale := env.appToScale, vcap := env.vcap, scaleUp := env.scaleUp);
    if env.maxInstances.Some? {
      cfg := cfg.(max := env.maxInstances.value);
    }
    if env.minInstances.Some? {
      cfg := cfg.(min := env.minInstances.value);
    }
    cfg := cfg.(vcap := cfg.vcap.(capiAddr := HttpAddr(cfg.vcap.capiAddr)));
    return Success(cfg);
  }

  /** `scaleTo`: the instance count one step in the configured direction, and whether it is allowed. */
  function ScaleTo(current: int, cfg: Config): (r: (int, bool))
    ensures cfg.scaleUp ==> r.0 == current + 1 && (r.1 <==> r.0 <= cfg.max)
    ensures !cfg.scaleUp ==> r.0 == current - 1 && (r.1 <==> r.0 >= cfg.min)
  {
    if cfg.scaleUp then
      var next := current + 1;
      (next, next <= cfg.max)
    else
      var next := current - 1;
      (next, next >= cfg.min)
  }

  /** An allowed step moves by exactly one instance and never leaves `[min, max]` once inside it. */
  lemma ScaleToStaysInBounds(current: int, cfg: Config)
    requires cfg.min <= current <= cfg.max
    requires ScaleTo(current, cfg).1
    ensures cfg.min <= ScaleTo(current, cfg).0 <= cfg.max
    ensures ScaleTo(current, cfg).0 - current == (if cfg.scaleUp then 1 else -1)
  {
  }

  /** The calls the handler makes on the CAPI client, in order. */
  datatype Call = LastEvent | ProcessStats | Scale(instances: int)

  /** The errors the handler returns, each naming the app and the client's cause. */
  datatype HandlerError =
    | LastEventFailed(app: string, cause: string)
    | ProcessStatsFailed(app: string, cause: string)
    | ScaleFailed(app: string, instances: int, cause: string)

  /** The event type the cooldown guard looks for. */
  const UpdateEvent: string := "audit.app.update"

  /**
   * The handler. The client's answers are inputs: `lastEvent` and
   * `processStats` are what those calls return (statistics as the number of
   * process instances) and `scaleError` is what `Scale` would return; an answer is
   * only used if its call appears in `calls`.
   */
  method Handle(
    cfg: Config,
    lastEvent: Result<seq<EventResource>, string>,
    now: Time,
    processStats: Result<nat, string>,
    scaleError: Option<string>)
    returns (calls: seq<Call>, err: Option<HandlerError>)
    ensures |calls| >= 1 && calls[0] == LastEvent
    ensures lastEvent.Failure? ==>
      calls == [LastEvent] && err == Some(LastEventFailed(cfg.appToScale, lastEvent.error))
    ensures lastEvent.Success? && RecentEventOfType(lastEvent.value, UpdateEvent, now) ==>
      calls == [LastEvent] && err == None
    ensures lastEvent.Success? && !RecentEventOfType(lastEvent.value, UpdateEvent, now) ==>
      |calls| >= 2 && calls[1] == ProcessStats
    ensures processStats.Failure? && |calls| >= 2 ==>
      calls == [LastEvent, ProcessStats] && err == Some(ProcessStatsFailed(cfg.appToScale, processStats.error))
    ensures processStats.Success? && |calls| >= 2 && !ScaleTo(processStats.value, cfg).1 ==>
      calls == [LastEvent, ProcessStats] && err == None
    ensures (exists k :: 0 <= k < |calls| && calls[k].Scale?) <==>
      && lastEvent.Success? && !RecentEventOfType(lastEvent.value, UpdateEvent, now)
      && processStats.Success? && ScaleTo(processStats.value, cfg).1
    ensures forall k :: 0 <= k < |calls| && calls[k].Scale? ==>
      && k == 2 && |calls| == 3
      && calls[k].instances == ScaleTo(processStats.value, cfg).0
      && err == (if scaleError.Some? then Some(ScaleFailed(cfg.appToScale, calls[k].instances, scaleError.value)) else None)
  {
    calls := [LastEvent];
    if lastEvent.Failure? {
      return calls, Some(LastEventFailed(cfg.appToScale, lastEvent.error));
    }
    var resources := lastEvent.value;
    if |resources| > 0 && resources[0].entityType == UpdateEvent && resources[0].createdAt > now - Cooldown {
      return calls, None;
    }
    calls := calls + [ProcessStats];
    if processStats.Failure? {
      return calls, Some(ProcessStatsFailed(cfg.appToScale, processStats.error));
    }
    var instanceCount, ok := ScaleTo(processStats.value, cfg).0, ScaleTo(processStats.value, cfg).1;
    if !ok {
      return calls, None;
    }
    calls := calls + [Scale(instanceCount)];
    assert calls[2].Scale?;
    if scaleError.Some? {
      return calls, Some(ScaleFailed(cfg.appToScale, instanceCount, scaleError.value));
    }
    return calls, None;
  }
}
